/**
 * The per-user conversation record `DB[userId]` as a value, and what each bot
 * handler does to it. The `Bot` module's classes update the same record in place
 * and are specified by these functions.
 */
module Sessions {

  import opened Options
  import opened Strings
  import opened Labels
  import opened Records

  /** `DB[userId]`: the display name, the live queue, the saved copy, the pending record and three flags. */
  datatype State = State(
    realName: Option<string>,
    queue: seq<Item>,
    savedData: Option<seq<Item>>,
    currentInput: Option<Draft>,
    waitingForName: bool,
    waitingForInput: bool,
    waitingForStock: bool)

  /** `userDb.realName` is truthy: set, and not the empty string. */
  predicate HasName(s: State) {
    s.realName.Some? && s.realName.value != ""
  }

  /** Every item in the sequence is printed at least once on its own stock. */
  predicate Stocked(items: seq<Item>) {
    forall i :: 0 <= i < |items| ==> items[i].stock >= 1
  }

  /**
   * What holds of every record the handlers can reach: the name is asked for
   * exactly while it is unset; nothing is queued, saved or pending before the
   * user has a (non-empty) name; a stock is awaited only for a parsed record;
   * a saved copy is never empty; every queued item has stock at least 1.
   */
  predicate Inv(s: State) {
    && (s.waitingForName <==> s.realName.None?)
    && (s.waitingForName ==>
          s.queue == [] && s.savedData.None? && s.currentInput.None?
          && !s.waitingForInput && !s.waitingForStock)
    && (s.waitingForInput || s.waitingForStock || s.queue != [] || s.savedData.Some? ==> HasName(s))
    && (s.waitingForStock ==> s.currentInput.Some?)
    && (s.savedData.Some? ==> s.savedData.value != [] && Stocked(s.savedData.value))
    && Stocked(s.queue)
  }

  // ---------------------------------------------------------------------------
  // bot.start

  /** The record `bot.start` installs: no name yet, nothing queued or saved, asking for the name. */
  function Initial(): (s: State)
    ensures Inv(s)
    ensures s.waitingForName && !s.waitingForInput && !s.waitingForStock
    ensures s.queue == [] && s.savedData.None? && s.realName.None?
  {
    State(None, [], None, None, true, false, false)
  }

  // ---------------------------------------------------------------------------
  // menu_tambah

  /** "Tambah Data": start waiting for a record block, but only once the user has a name. */
  function AddData(s: State): (r: State)
    ensures r.waitingForInput <==> s.waitingForInput || HasName(s)
    ensures r.(waitingForInput := s.waitingForInput) == s
    ensures Inv(s) ==> Inv(r)
  {
    if HasName(s) then s.(waitingForInput := true) else s
  }

  // ---------------------------------------------------------------------------
  // menu_save

  /** The JSON document written on save (the Telegram handle and the timestamp are not modelled). */
  datatype Export = Export(generatedBy: string, items: seq<Item>)

  datatype SaveOutcome = EmptyQueue | Saved(fileName: string, document: Export)

  /** `data_${realName.replace(/\s/g, '_')}_${Date.now()}.json` */
  function ExportFileName(realName: string, now: nat): (fileName: string)
    ensures forall i :: 0 <= i < |fileName| ==> !IsWhitespace(fileName[i])
    ensures |fileName| > 10 && fileName[..5] == "data_" && fileName[|fileName| - 5..] == ".json"
    ensures |fileName| == |realName| + |Numeral(now)| + 11
    ensures fileName[5 .. 5 + |realName|] == Underscored(realName)
    ensures fileName[5 + |realName|] == '_' && fileName[6 + |realName| .. |fileName| - 5] == Numeral(now)
  {
    var digits := Numeral(now);
    assert forall i :: 0 <= i < |digits| ==> IsDigit(digits[i]);
    "data_" + Underscored(realName) + "_" + digits + ".json"
  }

  /**
   * "Save (JSON)": refused while the queue is empty; otherwise the queue is
   * written out under the user's name and copied into `savedData`.
   */
  function Save(s: State, now: nat): (r: (State, SaveOutcome))
    requires s.queue != [] ==> s.realName.Some?
    ensures s.queue == [] ==> r == (s, EmptyQueue)
    ensures s.queue != [] ==>
      && r.0 == s.(savedData := Some(s.queue))
      && r.1.Saved?
      && r.1.document == Export(s.realName.value, s.queue)
      && r.1.fileName == ExportFileName(s.realName.value, now)
    ensures Inv(s) ==> Inv(r.0)
  {
    if s.queue == [] then (s, EmptyQueue)
    else
      var name := s.realName.value;
      (s.(savedData := Some(s.queue)), Saved(ExportFileName(name, now), Export(name, s.queue)))
  }

  // ---------------------------------------------------------------------------
  // menu_generate

  datatype GenerateOutcome =
    | MissingSnapshot
    | RenderFailed
    | Rendered(pages: seq<seq<Cell>>, fileName: string)

  /** `${realName}` in a template literal: the name itself, or "null" when it is unset. */
  function NameText(realName: Option<string>): string
  {
    match realName
    case None => "null"
    case Some(name) => name
  }

  /** `label_${realName}_${Date.now()}.pdf` (the name is not sanitised here). */
  function DocumentFileName(realName: Option<string>, now: nat): (fileName: string)
    ensures var name := NameText(realName);
      && |fileName| == |name| + |Numeral(now)| + 11
      && fileName[..6] == "label_" && fileName[|fileName| - 4..] == ".pdf"
      && fileName[6 .. 6 + |name|] == name
      && fileName[6 + |name|] == '_' && fileName[7 + |name| .. |fileName| - 4] == Numeral(now)
  {
    "label_" + NameText(realName) + "_" + Numeral(now) + ".pdf"
  }

  /**
   * "Generate PDF": refused without saved data; otherwise the saved items are
   * expanded by stock and laid out nine to a page. `rendered` says whether the
   * browser rendering and the upload succeeded. A copy count beyond what `Array`
   * accepts throws inside the same `try` and fails the same way. Only on success
   * are the queue and the saved copy cleared.
   */
  function Generate(s: State, rendered: bool, now: nat): (r: (State, GenerateOutcome))
    ensures s.savedData.None? ==> r == (s, MissingSnapshot)
    ensures s.savedData.Some? && !(rendered && Expandable(s.savedData.value)) ==> r == (s, RenderFailed)
    ensures s.savedData.Some? && rendered && Expandable(s.savedData.value) ==>
      && r.0 == s.(queue := [], savedData := None)
      && r.1.Rendered?
      && r.1.pages == Layout(Expand(s.savedData.value))
      && |r.1.pages| == CeilDiv(TotalCopies(s.savedData.value), PageCapacity)
      && Flatten(r.1.pages) == Cells(Expand(s.savedData.value))
      && r.1.fileName == DocumentFileName(s.realName, now)
    ensures Inv(s) ==> Inv(r.0)
  {
    match s.savedData
    case None => (s, MissingSnapshot)
    case Some(saved) =>
      if !rendered || !Expandable(saved) then (s, RenderFailed)
      else
        var labels := Expand(saved);
        LayoutFlatten(labels);
        (s.(queue := [], savedData := None), Rendered(Layout(labels), DocumentFileName(s.realName, now)))
  }

  // ---------------------------------------------------------------------------
  // bot.on('text')

  /** `text.startsWith('/')`: commands are left to their own handlers. */
  predicate IsCommand(text: string): (b: bool)
    ensures b <==> "/" <= text
  {
    |text| > 0 && text[0] == '/'
  }

  /** The queued item the stock step makes of the pending record. */
  function WithStock(d: Draft, text: string): (item: Item)
    ensures item.name == d.name && item.description == d.description && item.price == d.price
    ensures item.stock >= 1 && item.stock == ParseStock(text)
  {
    Item(d.name, d.description, d.price, ParseStock(text))
  }

  /**
   * A text message: ignored when it is a command; otherwise the first flag set,
   * in the order name, stock, record block, decides what it is.
   */
  function Text(s: State, text: string): (r: State)
    requires s.waitingForStock ==> s.currentInput.Some?
    // a command, or a message nothing is waiting for, changes nothing
    ensures IsCommand(text) ==> r == s
    ensures !s.waitingForName && !s.waitingForStock && !s.waitingForInput ==> r == s
    // the name
    ensures !IsCommand(text) && s.waitingForName ==>
      r == s.(realName := Some(text), waitingForName := false)
    // the stock: exactly one item appended, earlier items untouched
    ensures !IsCommand(text) && !s.waitingForName && s.waitingForStock ==>
      && |r.queue| == |s.queue| + 1
      && r.queue[..|s.queue|] == s.queue
      && r.queue[|s.queue|] == WithStock(s.currentInput.value, text)
      && r == s.(queue := r.queue, waitingForStock := false)
    // a record block with fewer than two non-blank lines is refused in place
    ensures (!IsCommand(text) && !s.waitingForName && !s.waitingForStock && s.waitingForInput
             && |KeptLines(text)| < 2) ==> r == s
    // an accepted block becomes the pending record and the stock is asked for
    ensures (!IsCommand(text) && !s.waitingForName && !s.waitingForStock && s.waitingForInput
             && |KeptLines(text)| >= 2) ==>
      && r.currentInput == ParseRecord(text) && r.currentInput.Some?
      && r == s.(currentInput := r.currentInput, waitingForInput := false, waitingForStock := true)
    // the saved copy is never touched by a message
    ensures r.savedData == s.savedData
    ensures Inv(s) ==> Inv(r)
  {
    if IsCommand(text) then s
    else if s.waitingForName then
      s.(realName := Some(text), waitingForName := false)
    else if s.waitingForStock then
      s.(queue := s.queue + [WithStock(s.currentInput.value, text)], waitingForStock := false)
    else if s.waitingForInput then
      match ParseRecord(text)
      case None => s
      case Some(d) => s.(currentInput := Some(d), waitingForInput := false, waitingForStock := true)
    else s
  }

  // ---------------------------------------------------------------------------
  // Properties across handlers

  /**
   * Snapshot isolation: once saved, the copy stays as it was through any number
   * of later text messages; only save and generate replace it.
   */
  lemma {:induction false} SnapshotSurvivesMessages(s: State, texts: seq<string>)
    requires Inv(s)
    ensures RunTexts(s, texts).savedData == s.savedData
    ensures Inv(RunTexts(s, texts))
    decreases |texts|
  {
    if texts != [] {
      SnapshotSurvivesMessages(Text(s, texts[0]), texts[1..]);
    }
  }

  /** Commands pass through the text handler: any run of them leaves the record as it was. */
  lemma {:induction false} CommandsIgnored(s: State, texts: seq<string>)
    requires Inv(s)
    requires forall i :: 0 <= i < |texts| ==> IsCommand(texts[i])
    ensures RunTexts(s, texts) == s
    decreases |texts|
  {
    if texts != [] {
      assert IsCommand(texts[0]);
      CommandsIgnored(s, texts[1..]);
    }
  }

  /** The record after a sequence of text messages. */
  function RunTexts(s: State, texts: seq<string>): State
    requires Inv(s)
    decreases |texts|
  {
    if texts == [] then s
    else
      var next := Text(s, texts[0]);
      assert Inv(next);
      RunTexts(next, texts[1..])
  }

  /**
   * Adding a record takes two messages: an accepted block, then the stock. From a
   * record waiting for a block, the pair queues exactly one item, made of the
   * parsed block and the stock, and leaves nothing pending.
   */
  lemma AddRecord(s: State, block: string, stockText: string)
    requires Inv(s) && !s.waitingForName && !s.waitingForStock && s.waitingForInput
    requires !IsCommand(block) && !IsCommand(stockText) && ParseRecord(block).Some?
    ensures var r := Text(Text(s, block), stockText);
      && r.queue == s.queue + [WithStock(ParseRecord(block).value, stockText)]
      && !r.waitingForInput && !r.waitingForStock && r.savedData == s.savedData
  {
    var t := Text(s, block);
    assert t.currentInput == ParseRecord(block);
    var r := Text(t, stockText);
    assert r.queue == t.queue + [WithStock(t.currentInput.value, stockText)];
  }

  lemma StockThree()
    ensures ParseStock("3") == 3
  {
    StockOfNumeral("", 3, "");
    assert Numeral(3) == "3";
    assert "" + "3" + "" == "3";
  }

  /** The laptop block and the stock "3" queue one laptop item that prints as three labels. */
  lemma AddLaptop(s: State)
    requires Inv(s) && !s.waitingForName && !s.waitingForStock && s.waitingForInput
    ensures var r := Text(Text(s, "LaptopX\nRAM 8GB\nSSD 256GB\n4500000"), "3");
      && r.queue == s.queue + [Item("LaptopX", "RAM 8GB\nSSD 256GB", 4500000, 3)]
      && Expand([r.queue[|s.queue|]]) == Repeat(r.queue[|s.queue|], 3)
  {
    LaptopRecord();
    StockThree();
    AddRecord(s, "LaptopX\nRAM 8GB\nSSD 256GB\n4500000", "3");
    var item := Item("LaptopX", "RAM 8GB\nSSD 256GB", 4500000, 3);
    assert Expand([item]) == Repeat(item, 3) + Expand([]);
  }

}
