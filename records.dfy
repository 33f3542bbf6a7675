/**
 * The free-text parsing the text handler does: a record block (name, description
 * lines, price on the last line) and the follow-up stock message.
 */
module Records {

  import opened Options
  import opened Strings

  /** `currentInput`: a parsed record still waiting for its stock. */
  datatype Draft = Draft(name: string, description: string, price: nat)

  /** `lines.filter(l => l.trim() !== "")` */
  function NonBlank(lines: seq<string>): (kept: seq<string>)
    ensures |kept| <= |lines|
    ensures forall i :: 0 <= i < |kept| ==> !IsBlank(kept[i])
  {
    if lines == [] then []
    else (if IsBlank(lines[0]) then [] else [lines[0]]) + NonBlank(lines[1..])
  }

  /** The filter works line by line: filtering a concatenation filters each part, in order. */
  lemma {:induction false} NonBlankAppend(a: seq<string>, b: seq<string>)
    ensures NonBlank(a + b) == NonBlank(a) + NonBlank(b)
    decreases |a|
  {
    if a == [] {
      assert a + b == b;
    } else {
      var head := if IsBlank(a[0]) then [] else [a[0]];
      NonBlankAppend(a[1..], b);
      calc {
        NonBlank(a + b);
        head + NonBlank((a + b)[1..]);
        { assert (a + b)[1..] == a[1..] + b; }
        head + (NonBlank(a[1..]) + NonBlank(b));
        NonBlank(a) + NonBlank(b);
      }
    }
  }

  /** Exactly the non-blank lines are kept. */
  lemma {:induction false} NonBlankMembers(lines: seq<string>)
    ensures forall x :: x in NonBlank(lines) <==> x in lines && !IsBlank(x)
    decreases |lines|
  {
    if lines != [] {
      NonBlankMembers(lines[1..]);
      assert lines == [lines[0]] + lines[1..];
    }
  }

  /** One line: a blank line is dropped, any other line is kept as it is. */
  lemma NonBlankLine(line: string)
    ensures IsBlank(line) ==> NonBlank([line]) == []
    ensures !IsBlank(line) ==> NonBlank([line]) == [line]
  {
  }

  lemma {:induction false} NonBlankKeepsAll(lines: seq<string>)
    requires forall i :: 0 <= i < |lines| ==> !IsBlank(lines[i])
    ensures NonBlank(lines) == lines
    decreases |lines|
  {
    if lines != [] {
      NonBlankKeepsAll(lines[1..]);
      assert [lines[0]] + lines[1..] == lines;
    }
  }

  /** Every kept line is one line of the block: it holds no newline. */
  lemma {:induction false} NonBlankLineFree(lines: seq<string>)
    requires forall i :: 0 <= i < |lines| ==> '\n' !in lines[i]
    ensures forall i :: 0 <= i < |NonBlank(lines)| ==> '\n' !in NonBlank(lines)[i]
    decreases |lines|
  {
    if lines != [] {
      NonBlankLineFree(lines[1..]);
    }
  }

  /** `text.split('\n').filter(l => l.trim() !== "")` */
  function KeptLines(text: string): (lines: seq<string>)
    ensures forall i :: 0 <= i < |lines| ==> !IsBlank(lines[i]) && '\n' !in lines[i]
  {
    NonBlankLineFree(Split(text, '\n'));
    NonBlank(Split(text, '\n'))
  }

  /** `parseInt(line.replace(/\D/g, '')) || 0`: the number the digits of the line spell, 0 without digits. */
  function ParsePrice(line: string): (price: nat)
    ensures NoDigits(line) ==> price == 0
    ensures AllDigits(line) ==> price == DecimalValue(line)
  {
    var ds := KeepDigits(line);
    assert NoDigits(line) ==> ds == "" by {
      if NoDigits(line) {
        KeepDigitsOfNoise(line);
      }
    }
    assert AllDigits(line) ==> ds == line by {
      if AllDigits(line) {
        KeepDigitsOfDigits(line);
      }
    }
    DecimalValue(ds)
  }

  /** `parseInt(text.replace(/\D/g, '')) || 1`: the number the digits spell, 1 when that is absent or zero. */
  function ParseStock(text: string): (stock: nat)
    ensures stock >= 1
    ensures stock == 1 <==> DecimalValue(KeepDigits(text)) <= 1
    ensures DecimalValue(KeepDigits(text)) >= 1 ==> stock == DecimalValue(KeepDigits(text))
  {
    var v := DecimalValue(KeepDigits(text));
    if v == 0 then 1 else v
  }

  lemma SplitJoinLines(lines: seq<string>)
    requires forall i :: 0 <= i < |lines| ==> '\n' !in lines[i]
    ensures |lines| > 0 ==> Split(Join(lines, '\n'), '\n') == lines
  {
    if |lines| > 0 {
      SplitJoin(lines, '\n');
    }
  }

  /**
   * The record block: rejected (None) with fewer than two non-blank lines;
   * otherwise the first kept line is the name, the kept lines between the first
   * and the last, joined by newlines, are the description, and the last kept
   * line gives the price.
   */
  function ParseRecord(text: string): (r: Option<Draft>)
    ensures r.None? <==> |KeptLines(text)| < 2
    ensures r.Some? ==> !IsBlank(r.value.name) && '\n' !in r.value.name
    ensures r.Some? ==> r.value.name == KeptLines(text)[0]
    ensures r.Some? && |KeptLines(text)| == 2 ==> r.value.description == ""
    ensures r.Some? && |KeptLines(text)| > 2 ==>
      Split(r.value.description, '\n') == KeptLines(text)[1 .. |KeptLines(text)| - 1]
    ensures r.Some? ==> r.value.price == ParsePrice(KeptLines(text)[|KeptLines(text)| - 1])
  {
    var lines := KeptLines(text);
    if |lines| < 2 then None
    else
      var interior := lines[1 .. |lines| - 1];
      assert forall i :: 0 <= i < |interior| ==> '\n' !in interior[i] by {
        assert forall i :: 0 <= i < |interior| ==> interior[i] == lines[i + 1];
      }
      SplitJoinLines(interior);
      Some(Draft(lines[0], Join(interior, '\n'), ParsePrice(lines[|lines| - 1])))
  }

  // ---------------------------------------------------------------------------
  // Properties of the parsers

  /** Prices survive any non-digit decoration around them ("Rp ", ",-", ...). */
  lemma PriceIgnoresNoise(prefix: string, n: nat, suffix: string)
    requires NoDigits(prefix) && NoDigits(suffix)
    ensures ParsePrice(prefix + Numeral(n) + suffix) == n
  {
    KeepDigitsBetweenNoise(prefix, Numeral(n), suffix);
    DecimalValueOfNumeral(n);
  }

  /** Digit groups split by separators read as one number: the separators are dropped. */
  lemma PriceOfGroups(n0: string, g1: string, n1: string, g2: string, n2: string, g3: string, n3: string)
    requires NoDigits(n0) && NoDigits(n1) && NoDigits(n2) && NoDigits(n3)
    requires AllDigits(g1) && AllDigits(g2) && AllDigits(g3)
    ensures AllDigits(g1 + g2 + g3)
    ensures ParsePrice(n0 + g1 + n1 + g2 + n2 + g3 + n3) == DecimalValue(g1 + g2 + g3)
  {
    var s1 := n0 + g1;
    var s2 := s1 + n1;
    var s3 := s2 + g2;
    var s4 := s3 + n2;
    var s5 := s4 + g3;
    KeepDigitsAppend(n0, g1);
    KeepDigitsAppend(s1, n1);
    KeepDigitsAppend(s2, g2);
    KeepDigitsAppend(s3, n2);
    KeepDigitsAppend(s4, g3);
    KeepDigitsAppend(s5, n3);
    KeepDigitsOfNoise(n0);
    KeepDigitsOfNoise(n1);
    KeepDigitsOfNoise(n2);
    KeepDigitsOfNoise(n3);
    KeepDigitsOfDigits(g1);
    KeepDigitsOfDigits(g2);
    KeepDigitsOfDigits(g3);
    assert KeepDigits(s2) == g1;
    assert KeepDigits(s4) == g1 + g2;
    assert KeepDigits(s5 + n3) == g1 + g2 + g3;
  }

  lemma MillionsValue()
    ensures DecimalValue("1200000") == 1200000
  {
    assert Numeral(1200000) == "1200000";
    DecimalValueOfNumeral(1200000);
  }

  /** Thousands separators are noise too: "Rp 1.200.000,-" is a price of 1200000. */
  lemma RupiahPrice()
    ensures ParsePrice("Rp 1.200.000,-") == 1200000
  {
    PriceOfGroups("Rp ", "1", ".", "200", ".", "000", ",-");
    assert "Rp " + "1" + "." + "200" + "." + "000" + ",-" == "Rp 1.200.000,-";
    assert "1" + "200" + "000" == "1200000";
    MillionsValue();
  }

  /** A stock message holding a positive number yields that number. */
  lemma StockOfNumeral(prefix: string, n: nat, suffix: string)
    requires NoDigits(prefix) && NoDigits(suffix) && n >= 1
    ensures ParseStock(prefix + Numeral(n) + suffix) == n
  {
    PriceIgnoresNoise(prefix, n, suffix);
  }

  /** A leading zero changes nothing: "07" asks for 7 copies. */
  lemma StockLeadingZero(prefix: string, n: nat, suffix: string)
    requires NoDigits(prefix) && NoDigits(suffix) && n >= 1
    ensures ParseStock(prefix + "0" + Numeral(n) + suffix) == n
  {
    var ds := "0" + Numeral(n);
    KeepDigitsBetweenNoise(prefix, ds, suffix);
    assert prefix + ds + suffix == prefix + "0" + Numeral(n) + suffix;
    DecimalValueLeadingZero(Numeral(n));
    DecimalValueOfNumeral(n);
  }

  /** "05 lembar" (five sheets) asks for 5 copies. */
  lemma StockFiveSheets()
    ensures ParseStock("05 lembar") == 5
  {
    StockLeadingZero("", 5, " lembar");
    assert Numeral(5) == "5";
    assert "" + "0" + "5" + " lembar" == "05 lembar";
  }

  /** A stock message without digits, or whose digits are all zeros, yields 1. */
  lemma StockDefault(text: string)
    requires forall i :: 0 <= i < |text| ==> !IsDigit(text[i]) || text[i] == '0'
    ensures ParseStock(text) == 1
  {
    var ds := KeepDigits(text);
    ZerosKept(text);
    DecimalValueZero(ds);
  }

  lemma {:induction false} ZerosKept(text: string)
    requires forall i :: 0 <= i < |text| ==> !IsDigit(text[i]) || text[i] == '0'
    ensures forall i :: 0 <= i < |KeepDigits(text)| ==> KeepDigits(text)[i] == '0'
    decreases |text|
  {
    if text != [] {
      ZerosKept(text[1..]);
    }
  }

  /** Single lines joined into a block: the parser keeps exactly the non-blank ones, in order. */
  lemma KeptLinesOfJoin(lines: seq<string>)
    requires |lines| >= 1
    requires forall i :: 0 <= i < |lines| ==> '\n' !in lines[i]
    ensures KeptLines(Join(lines, '\n')) == NonBlank(lines)
  {
    SplitJoin(lines, '\n');
  }

  /** The parse depends on the kept lines alone. */
  lemma ParseByKeptLines(t1: string, t2: string)
    requires KeptLines(t1) == KeptLines(t2)
    ensures ParseRecord(t1) == ParseRecord(t2)
  {
  }

  /** Filtering the kept lines again keeps them all. */
  lemma KeptLinesOfKept(lines: seq<string>)
    requires forall i :: 0 <= i < |lines| ==> '\n' !in lines[i]
    ensures KeptLines(Join(NonBlank(lines), '\n')) == NonBlank(lines)
  {
    var kept := NonBlank(lines);
    NonBlankLineFree(lines);
    if kept == [] {
      assert Split("", '\n') == [""];
      NonBlankLine("");
    } else {
      KeptLinesOfJoin(kept);
      NonBlankKeepsAll(kept);
    }
  }

  /** Blank lines anywhere in a block change nothing: it parses as its non-blank lines alone. */
  lemma BlankLinesIgnored(lines: seq<string>)
    requires forall i :: 0 <= i < |lines| ==> '\n' !in lines[i]
    ensures ParseRecord(Join(lines, '\n')) == ParseRecord(Join(NonBlank(lines), '\n'))
  {
    KeptLinesOfKept(lines);
    if lines != [] {
      KeptLinesOfJoin(lines);
    }
    ParseByKeptLines(Join(lines, '\n'), Join(NonBlank(lines), '\n'));
  }

  lemma PriceLine(price: nat)
    ensures !IsBlank(Numeral(price)) && '\n' !in Numeral(price)
    ensures ParsePrice(Numeral(price)) == price
  {
    var s := Numeral(price);
    assert IsDigit(s[0]);
    assert forall i :: 0 <= i < |s| ==> s[i] != '\n' by {
      assert forall i :: 0 <= i < |s| ==> IsDigit(s[i]);
    }
    KeepDigitsOfDigits(s);
    DecimalValueOfNumeral(price);
  }

  /**
   * A block written as name, description lines and a number on the last line is
   * accepted and read back as exactly that name, description and price.
   */
  lemma ParseWellFormed(name: string, details: seq<string>, price: nat)
    requires !IsBlank(name) && '\n' !in name
    requires forall i :: 0 <= i < |details| ==> !IsBlank(details[i]) && '\n' !in details[i]
    ensures ParseRecord(Join([name] + details + [Numeral(price)], '\n'))
      == Some(Draft(name, Join(details, '\n'), price))
  {
    var priceLine := Numeral(price);
    PriceLine(price);
    var lines := [name] + details + [priceLine];
    forall i | 0 <= i < |lines|
      ensures !IsBlank(lines[i]) && '\n' !in lines[i]
    {
      if 0 < i < |lines| - 1 {
        assert lines[i] == details[i - 1];
      }
    }
    KeptLinesOfJoin(lines);
    NonBlankKeepsAll(lines);
    assert lines[1 .. |lines| - 1] == details;
  }

  lemma JoinTwo(x: string, y: string, sep: char)
    ensures Join([x, y], sep) == x + [sep] + y
  {
    JoinCons(x, [y], sep);
    assert [x] + [y] == [x, y];
  }

  lemma JoinFour(w: string, x: string, y: string, z: string, sep: char)
    ensures Join([w, x, y, z], sep) == w + [sep] + x + [sep] + y + [sep] + z
  {
    JoinTwo(y, z, sep);
    JoinCons(x, [y, z], sep);
    assert [x] + [y, z] == [x, y, z];
    JoinCons(w, [x, y, z], sep);
    assert [w] + [x, y, z] == [w, x, y, z];
  }

  lemma LaptopBlock()
    ensures Join(["LaptopX", "RAM 8GB", "SSD 256GB", "4500000"], '\n') == "LaptopX\nRAM 8GB\nSSD 256GB\n4500000"
  {
    JoinFour("LaptopX", "RAM 8GB", "SSD 256GB", "4500000", '\n');
  }

  lemma LaptopDetails()
    ensures Join(["RAM 8GB", "SSD 256GB"], '\n') == "RAM 8GB\nSSD 256GB"
  {
    JoinTwo("RAM 8GB", "SSD 256GB", '\n');
  }

  lemma LaptopLines()
    ensures !IsBlank("LaptopX") && '\n' !in "LaptopX"
    ensures var details := ["RAM 8GB", "SSD 256GB"];
      forall i :: 0 <= i < |details| ==> !IsBlank(details[i]) && '\n' !in details[i]
  {
    assert !IsWhitespace("LaptopX"[0]);
    assert !IsWhitespace("RAM 8GB"[0]) && !IsWhitespace("SSD 256GB"[0]);
  }

  lemma LaptopPrice()
    ensures Numeral(4500000) == "4500000"
  {
    assert Numeral(45) == "45";
    assert Numeral(450) == "450";
    assert Numeral(4500) == "4500";
    assert Numeral(45000) == "45000";
    assert Numeral(450000) == "450000";
  }

  /** The record of a laptop: name, two specification lines, and the price. */
  lemma LaptopRecord()
    ensures ParseRecord("LaptopX\nRAM 8GB\nSSD 256GB\n4500000")
      == Some(Draft("LaptopX", "RAM 8GB\nSSD 256GB", 4500000))
  {
    var details := ["RAM 8GB", "SSD 256GB"];
    LaptopLines();
    ParseWellFormed("LaptopX", details, 4500000);
    LaptopPrice();
    var lines := ["LaptopX"] + details + [Numeral(4500000)];
    assert lines == ["LaptopX", "RAM 8GB", "SSD 256GB", "4500000"];
    LaptopBlock();
    LaptopDetails();
  }

}
