# pricetag-bot: a Dafny model of the label bot's core

The bot collects price-label records from Telegram chats, one conversation
record per chat, and prints them as A4 sheets of nine labels. This project models
the logic of `start-bot.js`:

- **Render pipeline** (`labels.dfy`, module `Labels`): `expandLabelsByStock`
  repeats each queued item `stock || 1` times; `chunkArray` cuts a sequence into
  pages positionally; `generateHtml` lays out one page per chunk of nine and one
  cell per label, each description line its own entry. Only the page/cell
  structure is modelled, not the HTML text.
- **String operations** (`strings.dfy`, module `Strings`): JavaScript `split` and
  `join` on one character, `trim() !== ""`, `replace(/\s/g, '_')`,
  `replace(/\D/g, '')`, `parseInt` on a digit run, and a number printed in a
  template literal.
- **Free-text parsing** (`records.dfy`, module `Records`): the record block
  (name on the first non-blank line, description from the interior lines, price
  from the digits of the last line) and the stock message.
- **Conversation record** (`sessions.dfy`, module `Sessions`): the record
  `DB[userId]` as a value, the invariant every reachable record keeps, and one
  function per handler (`bot.start`, `menu_tambah`, `menu_save`,
  `menu_generate`, `bot.on('text')`).
- **In-place state** (`bot.dfy`, module `Bot`): class `Session` holds the same
  fields and its methods update them step by step as the handlers do, each
  specified by the matching `Sessions` function; class `Registry` is the map `DB`
  from chat id to `Session`, with the "no record for this chat" paths and the
  guarantee that a handler for one chat leaves every other chat's record alone.

The browser render and the upload are one boolean parameter of `Generate`
(success or failure); file writes do nothing; `Date.now()` is a parameter `now`.

Saving copies the queue into `savedData`. The file name comes from `realName`.
A successful generate clears both the queue and the saved copy. An accepted
record block clears `waitingForInput` and the stock message leaves it alone, so
the user presses "Tambah Data" again for the next item, unless they already
pressed it while the stock was awaited: then the next text is read as a block.

## Model

| member | source | states |
|---|---|---|
| `Labels.Copies` | start-bot.js:23 | an item prints `stock` copies, and exactly one when the stock is 0 or absent |
| `Labels.Expand` | start-bot.js:23 | the expansion holds exactly the sum of the items' copy counts, never fewer labels than items |
| `Labels.ExpandAppend` | start-bot.js:23 | expanding a concatenation is the concatenation of the expansions (queue order is kept) |
| `Labels.ExpandBlock` | start-bot.js:23 | item `i` fills one contiguous block of exactly its copy count, right after the labels of the items before it |
| `Labels.ExpandMembers` | start-bot.js:23 | a label occurs in the expansion exactly when it is a queued item |
| `Labels.ExpandSingles` | start-bot.js:23 | with every stock at most 1 the expansion is the queue itself |
| `Labels.Page` | start-bot.js:24 | page `i` is the slice starting at `i * size`, 1 to `size` long, full unless it is the last |
| `Labels.Chunk` | start-bot.js:24 | ceil(n / size) pages, zero exactly for empty input, all but the last of exactly `size`, the last of 1 to `size`, element `j` of page `i` is input element `i * size + j` |
| `Labels.ChunkFlatten` | start-bot.js:24 | concatenating the pages in order gives back the input exactly |
| `Labels.CellOf` | start-bot.js:31-37 | a cell shows the label's name and price, and its description lines contain no newline and join back to the description |
| `Labels.Layout` | start-bot.js:26-40 | one page per chunk of nine labels: ceil(n / 9) pages, all but the last full, cell `j` of page `p` showing label `9p + j` |
| `Labels.LayoutFlatten` | start-bot.js:27-40 | reading the pages cell by cell gives one cell per label, in label order |
| `Labels.TenSinglesTwoPages` | start-bot.js:23-30 | ten single-copy items make two pages, of 9 and 1 cells, the second showing the tenth item |
| `Strings.Trim` | start-bot.js:168 | `trim()` leaves no whitespace at either end, never lengthens the text, and leaves nothing exactly when the text is all whitespace |
| `Strings.BlankIffTrimmedEmpty` | start-bot.js:168 | `IsBlank` holds exactly for the lines whose `trim()` is `""` |
| `Strings.Join` | start-bot.js:173 | `join(sep)` starts with the first piece, followed by the separator when there is a second piece; `SplitJoin` inverts it |
| `Strings.Split` | start-bot.js:168 | `split('\n')` yields at least one piece and no piece contains the separator |
| `Strings.JoinSplit` | start-bot.js:34 | joining the pieces of a split gives the text back |
| `Strings.SplitJoin` | start-bot.js:173 | splitting a join of separator-free pieces gives the pieces back |
| `Strings.KeepDigits` | start-bot.js:172 | `replace(/\D/g, '')` keeps only decimal digits and never lengthens the text |
| `Strings.KeepDigitsBetweenNoise` | start-bot.js:172 | a digit run between non-digit text is exactly what survives |
| `Strings.KeepDigitsIdempotent` | start-bot.js:158 | removing non-digits twice is the same as once |
| `Strings.DecimalValue` | start-bot.js:158 | `parseInt` of a run of k digits is below 10^k, and at least 10^(k-1) when the run does not start with '0' |
| `Strings.DecimalValueDigit` | start-bot.js:158 | a single digit denotes its own value |
| `Strings.DecimalValueAppend` | start-bot.js:158 | positional notation: the value of `a + b` is the value of `a` times 10^|b| plus the value of `b` |
| `Strings.DecimalValueLeadingZero` | start-bot.js:158 | a leading '0' does not change the value, so "07" denotes 7 |
| `Strings.NumeralOfDecimalValue` | start-bot.js:172 | printing the value of a digit run without a leading zero gives the run back |
| `Strings.DecimalValueZero` | start-bot.js:158 | a digit run denotes 0 exactly when all its digits are '0' |
| `Strings.Numeral` | start-bot.js:100 | a printed number is a non-empty digit run with no leading zero unless it is 0 |
| `Strings.DecimalValueOfNumeral` | start-bot.js:172 | reading back a printed number gives the number |
| `Strings.Underscored` | start-bot.js:100 | same length, each whitespace character becomes '_', every other character is kept, no whitespace remains |
| `Records.NonBlank` | start-bot.js:168 | no kept line is blank, and there are no more kept lines than input lines |
| `Records.NonBlankMembers` | start-bot.js:168 | a line is kept exactly when it is an input line that is not blank |
| `Records.NonBlankAppend` | start-bot.js:168 | filtering a concatenation is the concatenation of the filtered parts, so the kept lines keep their order |
| `Records.NonBlankLine` | start-bot.js:168 | a single blank line is dropped and a single non-blank line is kept |
| `Records.KeptLines` | start-bot.js:168 | every kept line of a block is non-blank and free of newlines |
| `Records.KeptLinesOfJoin` | start-bot.js:168 | for single lines joined by newlines, the kept lines are exactly the non-blank ones, in order |
| `Records.BlankLinesIgnored` | start-bot.js:168-173 | blank lines anywhere in a block do not change the parse: the block parses like its non-blank lines alone |
| `Records.ParsePrice` | start-bot.js:172 | a line without digits has price 0; a line of digits only has the value those digits denote |
| `Records.ParseStock` | start-bot.js:158 | the stock is at least 1; it is 1 exactly when the message's digits denote 0 or 1 or there are none; otherwise it is the number the digits denote |
| `Records.StockOfNumeral` | start-bot.js:158 | a message holding a positive number among non-digits yields that number |
| `Records.StockLeadingZero` | start-bot.js:158 | a positive number written with a leading zero among non-digits yields that number |
| `Records.StockFiveSheets` | start-bot.js:158 | "05 lembar" yields stock 5 |
| `Records.StockDefault` | start-bot.js:158 | a message with no digits, or only zeros, yields stock 1 |
| `Records.ParseRecord` | start-bot.js:168-173 | rejected exactly when fewer than two non-blank lines remain; otherwise the name is the first kept line (non-blank, one line), the description is empty for two lines and splits back into the interior lines otherwise; the price is read from the last kept line |
| `Records.PriceIgnoresNoise` | start-bot.js:172 | a number surrounded by non-digit text is read as that number |
| `Records.PriceOfGroups` | start-bot.js:172 | digit groups split by separators read as the number of the groups run together |
| `Records.RupiahPrice` | start-bot.js:172 | "Rp 1.200.000,-" is a price of 1200000 |
| `Records.ParseWellFormed` | start-bot.js:168-173 | a block of name, description lines and a printed price parses back to exactly that name, description and price |
| `Records.LaptopRecord` | start-bot.js:168-173 | "LaptopX\nRAM 8GB\nSSD 256GB\n4500000" parses to name "LaptopX", description "RAM 8GB\nSSD 256GB", price 4500000 |
| `Sessions.Initial` | start-bot.js:73-80 | a new record asks for the name, has nothing queued, saved or pending, and satisfies the invariant |
| `Sessions.AddData` | start-bot.js:88-90 | "Tambah Data" sets `waitingForInput` only when the name is set (truthy), changes nothing else, and keeps the invariant |
| `Sessions.ExportFileName` | start-bot.js:100 | the JSON file name has no whitespace; it is "data_", then the name with each whitespace character replaced by '_', then '_', the printed timestamp and ".json" |
| `Sessions.Save` | start-bot.js:98-109 | an empty queue is refused with no change; otherwise `savedData` becomes a copy of the queue, the queue and everything else stay, the exported items are the queue under the user's name; keeps the invariant |
| `Sessions.DocumentFileName` | start-bot.js:128 | the PDF file name is "label_", then the name as printed (`null` when unset, not sanitised), then '_', the printed timestamp and ".pdf" |
| `Sessions.Generate` | start-bot.js:118-138 | no saved data: refused with no change; a failed render, or a copy count `Array` rejects: no change; a successful one clears the queue and the saved copy and renders the nine-per-page layout of the expanded saved items: ceil(N / 9) pages whose cells are those labels in order; keeps the invariant |
| `Sessions.IsCommand` | start-bot.js:144 | a message is a command exactly when "/" is a prefix of it |
| `Sessions.WithStock` | start-bot.js:158-160 | the queued item is the pending record with the parsed stock, which is at least 1 |
| `Sessions.Text` | start-bot.js:144-179 | commands change nothing; otherwise name, then stock, then record block in priority order: the name is set; or exactly one item is appended with earlier items untouched; or a block of fewer than two non-blank lines is refused with no change; or the parsed record becomes pending and the stock is asked for; with no flag set nothing changes; the saved copy is never touched; keeps the invariant |
| `Sessions.SnapshotSurvivesMessages` | start-bot.js:109 | after a save, any number of later text messages leaves the saved copy as it was and keeps the invariant |
| `Sessions.CommandsIgnored` | start-bot.js:144 | any run of command messages leaves the record exactly as it was |
| `Sessions.AddRecord` | start-bot.js:157-177 | from a record waiting for a block, an accepted block then a stock message append exactly the parsed record with that stock and leave nothing pending |
| `Sessions.AddLaptop` | start-bot.js:157-177 | the laptop block and "3" queue one laptop item with stock 3, which expands to three labels |
| `Bot.Session.constructor` | start-bot.js:73-80 | the new record is the initial record |
| `Bot.Session.AddData` | start-bot.js:88-90 | updates the fields as `Sessions.AddData` says and keeps the invariant |
| `Bot.Session.Save` | start-bot.js:98-109 | updates the fields and returns the outcome as `Sessions.Save` says |
| `Bot.Session.Generate` | start-bot.js:118-138 | updates the fields and returns the outcome as `Sessions.Generate` says |
| `Bot.Session.Text` | start-bot.js:144-179 | updates the fields as `Sessions.Text` says and keeps the invariant |
| `Bot.Registry.constructor` | start-bot.js:11 | the store starts with no records |
| `Bot.Registry.Start` | start-bot.js:71-80 | the chat gets a fresh initial record; every other chat keeps its record unchanged; records stay unshared |
| `Bot.Registry.AddData` | start-bot.js:85-90 | a chat without a record is refused with no change; otherwise only that chat's record changes |
| `Bot.Registry.Save` | start-bot.js:95-109 | a chat without a record is refused like an empty queue; otherwise only that chat's record changes |
| `Bot.Registry.Generate` | start-bot.js:115-138 | a chat without a record is refused like missing saved data; otherwise only that chat's record changes |
| `Bot.Registry.Text` | start-bot.js:141-144 | a message for a chat without a record changes nothing; otherwise only that chat's record changes |

## Left out

- Telegram transport: `ctx.reply`, `replyWithDocument`, the inline menus and `bot.launch`. Reply texts are not part of the state.
- Puppeteer (browser launch, `setContent`, `page.pdf`) and the upload: `Generate` takes their combined success as the parameter `rendered`.
- The HTML and CSS text of `generateHtml`. This includes the upper-casing of names (done by CSS), page breaks and grid sizes.
- The price formatting by `Intl.NumberFormat("id-ID")`: a cell keeps the price as a number.
- File system work: creating directories, the JSON and PDF writes, `path.join`. Writes do nothing in the model.
- The JSON layout, the `telegram_user` field and the `toLocaleString` timestamp of the export.
- `Date.now()`: it is the parameter `now`.
- JavaScript number limits: `parseInt` on a very long digit run loses precision as a float. Numbers are unbounded `nat` here. The one limit that changes behaviour is modelled: `Array(n)` throws a `RangeError` for `n` above 2^32 - 1, so `Sessions.Generate` fails like a failed render when a saved copy count is that large. Running out of memory on a large but accepted total is not modelled.
- JavaScript strings are UTF-16 code units; here a `char` is a Unicode scalar value.
- Interleaving at the `await` points of `menu_generate`: each handler runs as one atomic step.
- Console logging.
- `Bot.Session.Text`: the write `currentInput.stock = stock` is not kept on the pending record. The next accepted block overwrites it before anything reads it.
- `Labels.Chunk`: requires a positive size. The only caller passes 9. With size 0, JavaScript gives `[]` for an empty array and throws a `RangeError` otherwise.
- `Sessions.Save`: requires a set name when the queue is non-empty. JavaScript would throw a `TypeError` on `null.replace` otherwise. `Sessions.Inv` rules that state out for every reachable record.
- `Sessions.Text`: requires a pending record while a stock is awaited. JavaScript would throw a `TypeError` otherwise. `Sessions.Inv` rules that state out as well.
