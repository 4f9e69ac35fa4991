/**
 * The plain-text receipt layout of the print service: fixed-width column lines, description
 * truncation, centring, separators, the item block and the two ticket layouts (non-fiscal and
 * fiscal). `formatCurrency` (a locale currency formatter applied to a `Double`) is a parameter
 * `fmt`; nothing is assumed about what it returns except where a lemma says so.
 */
module PrintService {
  import opened KotlinTypes
  import opened KotlinText
  import opened Sequences
  import opened PrintTicketModels

  /** The paper width of an 80 mm roll in points. */
  const DefaultPrinterWidth: nat := 576

  /** The text layout reuses the point width as its line width in characters. */
  const LineWidth: nat := DefaultPrinterWidth

  /** The width the view layout allows for the combined CAE line. */
  const ViewCaeWidth: nat := 48

  const MaxDescLength: nat := 25

  /** `formatCurrency`: the amount rendered by the platform's currency formatter. */
  type CurrencyFormat = real -> string

  // ---------------------------------------------------------------------------------------
  // Column formatting

  /**
   * A description or sub-selection name cut to the 25-character column: kept when it fits,
   * otherwise its first 22 characters followed by an ellipsis.
   */
  function TruncateDescription(s: string): (r: string)
    ensures |r| <= MaxDescLength
    ensures |s| <= MaxDescLength ==> r == s
    ensures |s| > MaxDescLength ==> |r| == MaxDescLength
  {
    if |s| > MaxDescLength then s[..MaxDescLength - 3] + "..." else s
  }

  /** A cut description keeps its first 22 characters and ends in an ellipsis; any description keeps its first character. */
  lemma TruncateKeepsPrefix(s: string)
    ensures |s| > MaxDescLength ==> TruncateDescription(s)[..22] == s[..22] && TruncateDescription(s)[22..] == "..."
    ensures |s| > 0 ==> |TruncateDescription(s)| > 0 && TruncateDescription(s)[0] == s[0]
  {
  }

  /** Truncating an already truncated description changes nothing. */
  lemma TruncateIdempotent(s: string)
    ensures TruncateDescription(TruncateDescription(s)) == TruncateDescription(s)
  {
  }

  /** `String.format("%-5s %-25s %-8s %-8s", ...)` with the four column titles. */
  function HeaderRow(): string {
    PadRight("Cant.", 5) + " " + PadRight("Descripcion", 25) + " " + PadRight("SubTot.", 8) + " " + PadRight("Total", 8)
  }

  /** `buildTableHeader`: the four column titles padded to their fields, one space apart; the last keeps no padding. */
  function TableHeader(): (r: string)
    ensures |r| == 46
  {
    PadRight("Cant.", 5) + " " + PadRight("Descripcion", 25) + " " + PadRight("SubTot.", 8) + " " + "Total"
  }

  /**
   * Each column title starts at the column where the item line puts the corresponding value
   * (0, 6, 32 and 41).
   */
  lemma TableHeaderColumns()
    ensures var r := TableHeader();
      r[..5] == "Cant." && r[6..17] == "Descripcion" && r[32..39] == "SubTot." && r[41..] == "Total"
  {
    var a := PadRight("Cant.", 5) + " ";
    var b := a + PadRight("Descripcion", 25) + " ";
    var c := b + PadRight("SubTot.", 8) + " ";
    PadRightPrefix("Descripcion", 25);
    PadRightPrefix("SubTot.", 8);
    PrefixOfConcat(PadRight("Cant.", 5), " ");
    PrefixOfConcat(a + PadRight("Descripcion", 25), " ");
    PrefixOfConcat(b + PadRight("SubTot.", 8), " ");
    SliceOfConcat(a, PadRight("Descripcion", 25), 0, 11);
    SliceOfConcat(b, PadRight("SubTot.", 8), 0, 7);
    SuffixOfConcat(c, "Total");
  }

  /** The header is the formatted header row, trimmed: the trim only drops the padding after `Total`. */
  lemma TableHeaderIsFormatted()
    ensures TableHeader() == Trim(HeaderRow())
  {
    var c := PadRight("Cant.", 5) + " " + PadRight("Descripcion", 25) + " " + PadRight("SubTot.", 8) + " ";
    var pad := Spaces(3);
    assert PadRight("Total", 8) == "Total" + pad;
    AppendAssoc(c, "Total", pad);
    assert HeaderRow() == TableHeader() + pad;
    SpacesAreWhitespace(3);
    TableHeaderColumns();
    assert TableHeader()[0] == 'C' && TableHeader()[45] == 'l';
    TrimPadded("", TableHeader(), pad);
    assert "" + TableHeader() + pad == HeaderRow();
  }

  /** `String.format("%-5d %-25s %8s %8s", ...)` with an item's four rendered values. */
  function ItemRow(quantity: string, description: string, subtotal: string, total: string): string {
    PadRight(quantity, 5) + " " + PadRight(description, 25) + " " + PadLeft(subtotal, 8) + " " + PadLeft(total, 8)
  }

  /** `buildItemLine`: quantity, truncated description, subtotal and total, formatted and trimmed. */
  function ItemLine(item: TicketItem, fmt: CurrencyFormat): string {
    Trim(ItemRow(IntToString(item.quantity), TruncateDescription(item.description), fmt(item.subtotal), fmt(item.total)))
  }

  /** Values that fit their fields leave every column of the item row in place. */
  lemma ItemRowColumns(quantity: string, description: string, subtotal: string, total: string)
    requires |quantity| <= 5 && |description| <= 25 && |subtotal| <= 8 && |total| <= 8
    ensures var row := ItemRow(quantity, description, subtotal, total);
      && |row| == 49
      && row[..5] == PadRight(quantity, 5)
      && row[6..31] == PadRight(description, 25)
      && row[32..40] == PadLeft(subtotal, 8)
      && row[41..] == PadLeft(total, 8)
  {
    Slices7(PadRight(quantity, 5), " ", PadRight(description, 25), " ", PadLeft(subtotal, 8), " ", PadLeft(total, 8));
  }

  /** A row that starts with the quantity and ends with the total has nothing for the trim to remove. */
  lemma ItemRowTrimmed(quantity: string, description: string, subtotal: string, total: string)
    requires 0 < |quantity| <= 5 && !IsWhitespace(quantity[0]) && |description| <= 25 && |subtotal| <= 8
    requires 0 < |total| <= 8 && !IsWhitespace(total[|total| - 1])
    ensures Trim(ItemRow(quantity, description, subtotal, total)) == ItemRow(quantity, description, subtotal, total)
  {
    var row := ItemRow(quantity, description, subtotal, total);
    ItemRowColumns(quantity, description, subtotal, total);
    assert row[0] == row[..5][0] == quantity[0];
    assert row[48] == row[41..][7] == PadLeft(total, 8)[7] == total[|total| - 1];
    TrimNoop(row);
  }

  /** Under the fitting conditions the item line is the untrimmed row. */
  lemma ItemLineIsRow(item: TicketItem, fmt: CurrencyFormat)
    requires 0 <= item.quantity < 100000
    requires |fmt(item.subtotal)| <= 8
    requires 0 < |fmt(item.total)| <= 8 && !IsWhitespace(fmt(item.total)[|fmt(item.total)| - 1])
    ensures |IntToString(item.quantity)| <= 5
    ensures ItemLine(item, fmt) == ItemRow(IntToString(item.quantity), TruncateDescription(item.description), fmt(item.subtotal), fmt(item.total))
  {
    NatToStringLength(item.quantity, 5);
    assert Pow10(5) == 100000;
    ItemRowTrimmed(IntToString(item.quantity), TruncateDescription(item.description), fmt(item.subtotal), fmt(item.total));
  }

  /**
   * When the quantity has at most five digits and both amounts fit their eight-character columns,
   * the item line keeps every column in place: the quantity and the description are left-aligned
   * in their fields and the two amounts are right-aligned, ending at columns 40 and 49.
   */
  lemma ItemLineColumns(item: TicketItem, fmt: CurrencyFormat)
    requires 0 <= item.quantity < 100000
    requires |fmt(item.subtotal)| <= 8
    requires 0 < |fmt(item.total)| <= 8 && !IsWhitespace(fmt(item.total)[|fmt(item.total)| - 1])
    ensures var line := ItemLine(item, fmt);
      && |line| == 49
      && line[..5] == PadRight(IntToString(item.quantity), 5)
      && line[6..31] == PadRight(TruncateDescription(item.description), 25)
      && line[32..40] == PadLeft(fmt(item.subtotal), 8)
      && line[41..] == PadLeft(fmt(item.total), 8)
      && EndsWith(line[..40], fmt(item.subtotal))
      && EndsWith(line, fmt(item.total))
  {
    var line := ItemLine(item, fmt);
    ItemLineIsRow(item, fmt);
    ItemRowColumns(IntToString(item.quantity), TruncateDescription(item.description), fmt(item.subtotal), fmt(item.total));
    EndsWithRightJustified(line, 40, 8, fmt(item.subtotal));
    assert line[41..] == line[41..49];
    EndsWithRightJustified(line, 49, 8, fmt(item.total));
  }

  /** The text of a sub-selection's column: the truncated name, `" x "` and the quantity. */
  function SubselectionText(subselection: TicketSubselection): string {
    TruncateDescription(subselection.name) + " x " + IntToString(subselection.quantity)
  }

  /** `String.format("     %-25s %8s %8s", ...)` with a sub-selection's three rendered values. */
  function SubselectionRow(text: string, price: string, total: string): string {
    "     " + PadRight(text, 25) + " " + PadLeft(price, 8) + " " + PadLeft(total, 8)
  }

  /**
   * `buildSubselectionLine`: the sub-selection's text, price and total, formatted and trimmed.
   * The parent item's quantity is a parameter of the source function that it does not use.
   */
  function SubselectionLine(subselection: TicketSubselection, parentQuantity: Int32, fmt: CurrencyFormat): string {
    Trim(SubselectionRow(SubselectionText(subselection), fmt(subselection.price), fmt(subselection.total)))
  }

  /** Values that fit their fields leave every column of the sub-selection row in place. */
  lemma SubselectionRowColumns(text: string, price: string, total: string)
    requires |text| <= 25 && |price| <= 8 && |total| <= 8
    ensures var row := SubselectionRow(text, price, total);
      && |row| == 48
      && row[..5] == "     "
      && row[5..] == PadRight(text, 25) + " " + PadLeft(price, 8) + " " + PadLeft(total, 8)
  {
    Slices6("     ", PadRight(text, 25), " ", PadLeft(price, 8), " ", PadLeft(total, 8));
  }

  /** The trim removes exactly the five-space indent of the row. */
  lemma SubselectionRowTrimmed(text: string, price: string, total: string)
    requires 0 < |text| <= 25 && !IsWhitespace(text[0]) && |price| <= 8
    requires 0 < |total| <= 8 && !IsWhitespace(total[|total| - 1])
    ensures Trim(SubselectionRow(text, price, total)) == PadRight(text, 25) + " " + PadLeft(price, 8) + " " + PadLeft(total, 8)
  {
    var row := SubselectionRow(text, price, total);
    var core := PadRight(text, 25) + " " + PadLeft(price, 8) + " " + PadLeft(total, 8);
    SubselectionRowColumns(text, price, total);
    Slices5(PadRight(text, 25), " ", PadLeft(price, 8), " ", PadLeft(total, 8));
    assert core[0] == core[..25][0] == text[0];
    assert core[42] == core[35..][7] == PadLeft(total, 8)[7] == total[|total| - 1];
    assert AllWhitespace(row[..5]);
    TrimPadded(row[..5], core, "");
    assert row[..5] + core + "" == row;
  }

  /**
   * The layout of a sub-selection line: the five-space indent of the pattern is removed by the
   * trim, so the line starts with the sub-selection's text, at the same column as an item's
   * quantity; when the text fits 25 characters and the amounts fit 8, the price and the total
   * are right-aligned ending at columns 34 and 43. The parent item's quantity plays no part.
   */
  lemma SubselectionLineLayout(sub: TicketSubselection, parentQuantity: Int32, fmt: CurrencyFormat)
    requires |sub.name| > 0 && !IsWhitespace(sub.name[0])
    requires |SubselectionText(sub)| <= 25
    requires |fmt(sub.price)| <= 8
    requires 0 < |fmt(sub.total)| <= 8 && !IsWhitespace(fmt(sub.total)[|fmt(sub.total)| - 1])
    ensures var line := SubselectionLine(sub, parentQuantity, fmt);
      && StartsWith(line, TruncateDescription(sub.name) + " x " + IntToString(sub.quantity))
      && |line| == 43
      && line[..25] == PadRight(SubselectionText(sub), 25)
      && line[26..34] == PadLeft(fmt(sub.price), 8)
      && line[35..] == PadLeft(fmt(sub.total), 8)
      && EndsWith(line, fmt(sub.total))
  {
    var text := SubselectionText(sub);
    var price := fmt(sub.price);
    var tot := fmt(sub.total);
    TruncateKeepsPrefix(sub.name);
    assert text[0] == TruncateDescription(sub.name)[0] == sub.name[0];
    SubselectionRowTrimmed(text, price, tot);
    SubselectionCoreColumns(text, price, tot);
  }

  /** The sub-selection row without its indent: three right- or left-justified fields, 43 characters wide. */
  lemma SubselectionCoreColumns(text: string, price: string, total: string)
    requires |text| <= 25 && |price| <= 8 && |total| <= 8
    ensures var core := PadRight(text, 25) + " " + PadLeft(price, 8) + " " + PadLeft(total, 8);
      && |core| == 43
      && StartsWith(core, text)
      && core[..25] == PadRight(text, 25)
      && core[26..34] == PadLeft(price, 8)
      && core[35..] == PadLeft(total, 8)
      && EndsWith(core, total)
  {
    var core := PadRight(text, 25) + " " + PadLeft(price, 8) + " " + PadLeft(total, 8);
    Slices5(PadRight(text, 25), " ", PadLeft(price, 8), " ", PadLeft(total, 8));
    StartsWithLeftJustified(core, 25, text);
    assert core[35..] == core[35..43];
    EndsWithRightJustified(core, 43, 8, total);
  }

  /** The text of the total: the formatted amount, with a `$` put in front unless it already starts with one. */
  function TotalText(formatted: string): (r: string)
    ensures |r| > 0
    ensures StartsWith(formatted, "$") ==> r == formatted
    ensures !StartsWith(formatted, "$") ==> r == "$" + formatted
  {
    if StartsWith(formatted, "$") then formatted else "$" + formatted
  }

  /** The total text always starts with a dollar sign. */
  lemma TotalTextHasDollar(formatted: string)
    ensures StartsWith(TotalText(formatted), "$")
  {
    if !StartsWith(formatted, "$") {
      PrefixOfConcat("$", formatted);
    }
  }

  /** The dollar sign is never doubled: applying the rule to its own result changes nothing. */
  lemma TotalTextIdempotent(formatted: string)
    ensures TotalText(TotalText(formatted)) == TotalText(formatted)
  {
  }

  /** `String.format("%-35s %13s", "Total:", text)`. */
  function TotalRow(text: string): string {
    PadRight("Total:", 35) + " " + PadLeft(text, 13)
  }

  /** `buildTotalLine`: `"Total:"` and the total text, formatted and trimmed. */
  function TotalLine(total: real, fmt: CurrencyFormat): string {
    Trim(TotalRow(TotalText(fmt(total))))
  }

  /** A total row whose text ends in a visible character is left whole by the trim. */
  lemma TotalRowLayout(text: string)
    requires |text| > 0 && !IsWhitespace(text[|text| - 1])
    ensures var row := TotalRow(text);
      && Trim(row) == row
      && StartsWith(row, "Total:")
      && EndsWith(row, text)
      && (|text| <= 13 ==> |row| == 49)
  {
    TotalRowEnds(text);
    var row := TotalRow(text);
    assert row[0] == row[..6][0];
    assert row[|row| - 1] == row[|row| - |text|..][|text| - 1];
    TrimNoop(row);
  }

  lemma TotalRowEnds(text: string)
    ensures StartsWith(TotalRow(text), "Total:") && EndsWith(TotalRow(text), text)
  {
    var left := PadRight("Total:", 35) + " ";
    var right := PadLeft(text, 13);
    assert TotalRow(text) == left + right;
    PadRightPrefix("Total:", 35);
    assert (left + right)[..6] == left[..6];
    PadLeftSuffix(text, 13);
    assert (left + right)[|left + right| - |text|..] == right[|right| - |text|..];
  }

  /**
   * The total line starts with `"Total:"` and ends with the total text (which starts with `$`);
   * when that text fits its 13 characters the line is exactly 49 characters wide, so the amount
   * is right-aligned with the item totals.
   */
  lemma TotalLineLayout(total: real, fmt: CurrencyFormat)
    requires fmt(total) == "" || !IsWhitespace(fmt(total)[|fmt(total)| - 1])
    ensures var line := TotalLine(total, fmt);
      && StartsWith(line, "Total:")
      && EndsWith(line, TotalText(fmt(total)))
      && (|TotalText(fmt(total))| <= 13 ==> |line| == 49)
  {
    var f := fmt(total);
    var t := TotalText(f);
    if StartsWith(f, "$") {
      assert t == f;
    } else {
      assert t == "$" + f;
      assert t[|t| - 1] == if f == "" then '$' else f[|f| - 1];
    }
    TotalRowLayout(t);
  }

  /** `centerText`: text narrower than the line gets half the free width as left padding. */
  function CenterText(text: string): (r: string)
    ensures |text| >= LineWidth ==> r == text
    ensures |text| < LineWidth ==> |text| <= |r| <= LineWidth && |r| - |text| <= LineWidth - |r| <= |r| - |text| + 1
  {
    if |text| >= LineWidth then text
    else
      var padding := (LineWidth - |text|) / 2;
      var safePadding := if padding < 0 then 0 else padding;
      Spaces(safePadding) + text
  }

  /** A centred text is the text itself preceded only by spaces. */
  lemma CenterTextLayout(text: string)
    ensures var r := CenterText(text);
      && EndsWith(r, text)
      && (forall i | 0 <= i < |r| - |text| :: r[i] == ' ')
  {
    var r := CenterText(text);
    if |text| < LineWidth {
      var pad := Spaces((LineWidth - |text|) / 2);
      SuffixOfConcat(pad, text);
      RepeatChars(' ', |pad|);
    } else {
      assert r[|r| - |text|..] == r;
    }
  }

  /** Kotlin's `/` on `Int`, which truncates toward zero. */
  function TruncatedDiv(a: int, b: int): int
    requires b > 0
  {
    if a >= 0 then a / b else -((-a) / b)
  }

  /**
   * The number of separator characters for a view of `width` points: one per eight points,
   * and never fewer than one (`(width / 8).coerceAtLeast(1)`).
   */
  function SeparatorCharCount(width: int): (n: nat)
    ensures n >= 1
    ensures width >= 8 ==> n * 8 <= width < n * 8 + 8
    ensures width < 16 ==> n == 1
  {
    var q := TruncatedDiv(width, 8);
    if q < 1 then 1 else q
  }

  /** An 80 mm roll gets 72 separator characters. */
  lemma SeparatorForDefaultWidth()
    ensures SeparatorCharCount(DefaultPrinterWidth) == 72
  {
  }

  /** The text of `createSeparatorLine(width, character)`: the character string repeated. */
  function SeparatorLine(width: int, character: string): (r: string)
    ensures |r| == SeparatorCharCount(width) * |character|
    ensures |character| == 1 ==> r == Repeat(character[0], SeparatorCharCount(width))
  {
    if |character| == 1 then
      assert character == [character[0]];
      RepeatStringOfChar(character[0], SeparatorCharCount(width));
      RepeatString(character, SeparatorCharCount(width))
    else
      RepeatString(character, SeparatorCharCount(width))
  }

  /** The text layout's full-width rules. */
  function DoubleRule(): string { Repeat('=', LineWidth) }
  function SingleRule(): string { Repeat('-', LineWidth) }

  // ---------------------------------------------------------------------------------------
  // Items

  /** The sub-selection lines of one item: one per sub-selection, in order. */
  function SubselectionLines(subs: seq<TicketSubselection>, parentQuantity: Int32, fmt: CurrencyFormat): seq<string> {
    MapSeq(sub => SubselectionLine(sub, parentQuantity, fmt), subs)
  }

  predicate HasSubselections(item: TicketItem) {
    item.subselections.Some? && |item.subselections.value| > 0
  }

  /** The sub-selection lines followed by a blank line, or nothing when there are none. */
  function SubselectionBlock(item: TicketItem, fmt: CurrencyFormat): seq<string> {
    if HasSubselections(item) then SubselectionLines(item.subselections.value, item.quantity, fmt) + [""] else []
  }

  /** The item's note, trimmed, when it has one that is not blank. */
  function NoteLines(item: TicketItem): seq<string> {
    if item.comment.Some? && item.comment.value != "" && Trim(item.comment.value) != "" then
      ["NOTA: " + Trim(item.comment.value)]
    else []
  }

  /**
   * The lines one item contributes: nothing when its quantity is not positive; otherwise its item
   * line, its sub-selection block, its note (non-fiscal tickets only) and a closing `" "` line.
   */
  function ItemBlock(item: TicketItem, fmt: CurrencyFormat, withNotes: bool): seq<string> {
    if item.quantity <= 0 then []
    else [ItemLine(item, fmt)] + SubselectionBlock(item, fmt) + (if withNotes then NoteLines(item) else []) + [" "]
  }

  /** The lines of all items, in order. */
  function ItemsLines(items: seq<TicketItem>, fmt: CurrencyFormat, withNotes: bool): seq<string> {
    if |items| == 0 then []
    else ItemsLines(items[..|items| - 1], fmt, withNotes) + ItemBlock(items[|items| - 1], fmt, withNotes)
  }

  /** The items printed at all: those with a positive quantity, in order. */
  function Printed(items: seq<TicketItem>): (r: seq<TicketItem>)
    ensures forall k | 0 <= k < |r| :: r[k].quantity > 0
    ensures forall x :: x in r <==> x in items && x.quantity > 0
    ensures |r| <= |items|
  {
    if |items| == 0 then []
    else
      assert items == items[..|items| - 1] + [items[|items| - 1]];
      Printed(items[..|items| - 1]) + (if items[|items| - 1].quantity > 0 then [items[|items| - 1]] else [])
  }

  /** The filter keeps order across a split: the items printed from `a + b` are those of `a`, then those of `b`. */
  lemma {:induction false} PrintedAppend(a: seq<TicketItem>, b: seq<TicketItem>)
    ensures Printed(a + b) == Printed(a) + Printed(b)
    decreases |b|
  {
    if |b| == 0 {
      assert a + b == a;
    } else {
      var init := b[..|b| - 1];
      var last := b[|b| - 1];
      assert (a + b)[..|a + b| - 1] == a + init;
      assert (a + b)[|a + b| - 1] == last;
      PrintedAppend(a, init);
    }
  }

  /** An item on its own is printed exactly when its quantity is positive. */
  lemma PrintedSingle(item: TicketItem)
    ensures Printed([item]) == if item.quantity > 0 then [item] else []
  {
    assert [item][..0] == [];
  }

  /**
   * The shape of a printed item's block: the item line, then one line per sub-selection in
   * order, then a blank line exactly when there are sub-selections, then at most the note, and
   * always a final `" "` line.
   */
  lemma {:induction false} ItemBlockShape(item: TicketItem, fmt: CurrencyFormat, withNotes: bool)
    requires item.quantity > 0
    ensures var block := ItemBlock(item, fmt, withNotes);
      var n := if item.subselections.Some? then |item.subselections.value| else 0;
      var blank := if n > 0 then 1 else 0;
      && |block| == 2 + n + blank + (if withNotes then |NoteLines(item)| else 0)
      && block[0] == ItemLine(item, fmt)
      && (forall k | 0 <= k < n :: block[1 + k] == SubselectionLine(item.subselections.value[k], item.quantity, fmt))
      && (n > 0 ==> block[1 + n] == "")
      && block[|block| - 1] == " "
  {
    var block := ItemBlock(item, fmt, withNotes);
    var sb := SubselectionBlock(item, fmt);
    var note := if withNotes then NoteLines(item) else [];
    assert block == [ItemLine(item, fmt)] + sb + note + [" "];
    FramedShape(ItemLine(item, fmt), sb, note, " ");
    if HasSubselections(item) {
      var subs := item.subselections.value;
      var lines := SubselectionLines(subs, item.quantity, fmt);
      assert sb == lines + [""];
      forall k | 0 <= k < |subs|
        ensures block[1 + k] == SubselectionLine(subs[k], item.quantity, fmt)
      {
        MapSeqAt(sub => SubselectionLine(sub, item.quantity, fmt), subs, k);
        assert block[1 + k] == sb[k] == lines[k];
      }
      assert block[1 + |subs|] == sb[|subs|] == "";
    }
  }

  /** The last item's block comes last. */
  lemma ItemsLinesLast(items: seq<TicketItem>, fmt: CurrencyFormat, withNotes: bool)
    requires |items| > 0
    ensures ItemsLines(items, fmt, withNotes)
         == ItemsLines(items[..|items| - 1], fmt, withNotes) + ItemBlock(items[|items| - 1], fmt, withNotes)
  {
  }

  /** The item lines of a concatenation are the concatenation of the item lines. */
  lemma {:induction false} ItemsLinesAppend(a: seq<TicketItem>, b: seq<TicketItem>, fmt: CurrencyFormat, withNotes: bool)
    ensures ItemsLines(a + b, fmt, withNotes) == ItemsLines(a, fmt, withNotes) + ItemsLines(b, fmt, withNotes)
  {
    if |b| > 0 {
      var b' := b[..|b| - 1];
      var last := b[|b| - 1];
      var ab := a + b;
      assert ab[..|ab| - 1] == a + b';
      assert ab[|ab| - 1] == last;
      ItemsLinesLast(ab, fmt, withNotes);
      ItemsLinesLast(b, fmt, withNotes);
      ItemsLinesAppend(a, b', fmt, withNotes);
      AppendAssoc(ItemsLines(a, fmt, withNotes), ItemsLines(b', fmt, withNotes), ItemBlock(last, fmt, withNotes));
    } else {
      assert a + b == a;
    }
  }

  /** Items whose quantity is not positive contribute no lines: the ticket prints only `Printed(items)`. */
  lemma {:induction false} SkippedItemsPrintNothing(items: seq<TicketItem>, fmt: CurrencyFormat, withNotes: bool)
    ensures ItemsLines(items, fmt, withNotes) == ItemsLines(Printed(items), fmt, withNotes)
  {
    if |items| > 0 {
      var init := items[..|items| - 1];
      var last := items[|items| - 1];
      SkippedItemsPrintNothing(init, fmt, withNotes);
      if last.quantity > 0 {
        ItemsLinesAppend(Printed(init), [last], fmt, withNotes);
        assert [last][..0] == [];
      } else {
        assert Printed(items) == Printed(init) + [];
        assert Printed(init) + [] == Printed(init);
      }
    }
  }

  /** One more item adds its block at the end. */
  lemma ItemsLinesStep(items: seq<TicketItem>, i: nat, fmt: CurrencyFormat, withNotes: bool)
    requires i < |items|
    ensures ItemsLines(items[..i + 1], fmt, withNotes) == ItemsLines(items[..i], fmt, withNotes) + ItemBlock(items[i], fmt, withNotes)
  {
    assert items[..i + 1][..i] == items[..i];
  }

  /** The source's inner loop: one line per sub-selection, in order. */
  method BuildSubselectionLines(subs: seq<TicketSubselection>, parentQuantity: Int32, fmt: CurrencyFormat) returns (lines: seq<string>)
    ensures lines == SubselectionLines(subs, parentQuantity, fmt)
  {
    lines := [];
    for j := 0 to |subs|
      invariant lines == SubselectionLines(subs[..j], parentQuantity, fmt)
    {
      MapSeqStep(sub => SubselectionLine(sub, parentQuantity, fmt), subs, j);
      lines := lines + [SubselectionLine(subs[j], parentQuantity, fmt)];
    }
    assert subs[..|subs|] == subs;
  }

  /**
   * The source's loop body for one item: skipped when its quantity is not positive, otherwise
   * the item line, the sub-selection lines and a blank line, the note when notes are printed,
   * and `" "`.
   */
  method BuildItemBlock(item: TicketItem, fmt: CurrencyFormat, withNotes: bool) returns (block: seq<string>)
    ensures block == ItemBlock(item, fmt, withNotes)
  {
    block := [];
    if item.quantity > 0 {
      var subBlock: seq<string> := [];
      if item.subselections.Some? && |item.subselections.value| > 0 {
        subBlock := BuildSubselectionLines(item.subselections.value, item.quantity, fmt);
        subBlock := subBlock + [""];
      }
      var note: seq<string> := [];
      if withNotes && item.comment.Some? && item.comment.value != "" && Trim(item.comment.value) != "" {
        note := ["NOTA: " + Trim(item.comment.value)];
      }
      block := [ItemLine(item, fmt)] + subBlock + note + [" "];
    }
  }

  /** Appends the lines of every item, in order. */
  method AppendItems(lines: seq<string>, items: seq<TicketItem>, fmt: CurrencyFormat, withNotes: bool) returns (out: seq<string>)
    ensures out == lines + ItemsLines(items, fmt, withNotes)
  {
    out := lines;
    for i := 0 to |items|
      invariant out == lines + ItemsLines(items[..i], fmt, withNotes)
    {
      var block := BuildItemBlock(items[i], fmt, withNotes);
      ItemsLinesStep(items, i, fmt, withNotes);
      AppendAssoc(lines, ItemsLines(items[..i], fmt, withNotes), block);
      out := out + block;
    }
    assert items[..|items|] == items;
  }

  // ---------------------------------------------------------------------------------------
  // Non-fiscal ticket

  const Stars := "*************************"

  function PreferenceLines(ticket: NonFiscalTicket): seq<string> {
    match ticket.isTakeAway
    case None => []
    case Some(takeAway) => ["Preferencia: " + (if takeAway then "Para llevar" else "Para comer aqu\U{ED}"), ""]
  }

  function IdentifierLines(ticket: NonFiscalTicket): seq<string> {
    if ticket.isTakeAway != Some(true) && ticket.identifier.Some? && ticket.identifier.value != "" then
      ["Identificador: " + ticket.identifier.value, ""]
    else []
  }

  function TableLeadLines(ticket: NonFiscalTicket): seq<string> {
    if ticket.isTakeAway.Some? then [" ", SingleRule(), " "] else []
  }

  /** Everything above the item lines of a non-fiscal ticket. */
  function NonFiscalHeader(ticket: NonFiscalTicket): seq<string> {
    [DoubleRule()] + ["TU NUMERO DE PEDIDO ES: " + ticket.orderNumber] + [""]
      + PreferenceLines(ticket) + IdentifierLines(ticket) + TableLeadLines(ticket)
      + [TableHeader()] + [SingleRule()]
  }

  /** The fixed disclaimer block, centred. */
  function DisclaimerLines(): seq<string> {
    [CenterText(Stars), CenterText("COMPROBANTE NO FISCAL,"), CenterText("NO VALIDO COMO FACTURA."), CenterText(Stars)]
  }

  /** Everything below the item lines of a non-fiscal ticket. */
  function NonFiscalFooter(ticket: NonFiscalTicket, fmt: CurrencyFormat): seq<string> {
    [SingleRule()] + [TotalLine(ticket.total, fmt)] + [""] + [DoubleRule()] + [""]
      + [CenterText("----- " + ticket.dateTime + " -----")] + [""]
      + DisclaimerLines() + [""] + [""]
  }

  /** The lines of `buildNonFiscalTicketLines`. */
  function NonFiscalTicketLines(ticket: NonFiscalTicket, fmt: CurrencyFormat): seq<string> {
    NonFiscalHeader(ticket) + ItemsLines(ticket.items, fmt, true) + NonFiscalFooter(ticket, fmt)
  }

  /** The header part of `buildNonFiscalTicketLines`: rule, order number, preference, identifier and table head. */
  method BuildNonFiscalHeader(ticket: NonFiscalTicket) returns (lines: seq<string>)
    ensures lines == NonFiscalHeader(ticket)
  {
    lines := [Repeat('=', LineWidth)];
    lines := lines + ["TU NUMERO DE PEDIDO ES: " + ticket.orderNumber];
    lines := lines + [""];
    ghost var top := lines;
    if ticket.isTakeAway.Some? {
      var preferencia := if ticket.isTakeAway.value then "Para llevar" else "Para comer aqu\U{ED}";
      lines := lines + ["Preferencia: " + preferencia];
      lines := lines + [""];
      AppendAssoc(top, ["Preferencia: " + preferencia], [""]);
    }
    assert lines == top + PreferenceLines(ticket);
    ghost var preference := lines;
    if ticket.isTakeAway != Some(true) && ticket.identifier.Some? && ticket.identifier.value != "" {
      lines := lines + ["Identificador: " + ticket.identifier.value];
      lines := lines + [""];
      AppendAssoc(preference, ["Identificador: " + ticket.identifier.value], [""]);
    }
    assert lines == preference + IdentifierLines(ticket);
    ghost var identifier := lines;
    if ticket.isTakeAway.Some? {
      lines := lines + [" "];
      lines := lines + [Repeat('-', LineWidth)];
      lines := lines + [" "];
      AppendAssoc(identifier, [" "], [SingleRule()]);
      AppendAssoc(identifier, [" ", SingleRule()], [" "]);
    }
    assert lines == identifier + TableLeadLines(ticket);
    lines := lines + [TableHeader()];
    lines := lines + [Repeat('-', LineWidth)];
  }

  /** The footer part of `buildNonFiscalTicketLines`: total, date and the fixed disclaimer. */
  method BuildNonFiscalFooter(ticket: NonFiscalTicket, fmt: CurrencyFormat) returns (lines: seq<string>)
    ensures lines == NonFiscalFooter(ticket, fmt)
  {
    lines := [Repeat('-', LineWidth)];
    lines := lines + [TotalLine(ticket.total, fmt)];
    lines := lines + [""];
    lines := lines + [Repeat('=', LineWidth)];
    lines := lines + [""];
    lines := lines + [CenterText("----- " + ticket.dateTime + " -----")];
    lines := lines + [""];
    ghost var dated := lines;
    lines := lines + [CenterText(Stars)];
    lines := lines + [CenterText("COMPROBANTE NO FISCAL,")];
    lines := lines + [CenterText("NO VALIDO COMO FACTURA.")];
    lines := lines + [CenterText(Stars)];
    assert lines == dated + DisclaimerLines();
    lines := lines + [""];
    lines := lines + [""];
  }

  /**
   * `buildNonFiscalTicketLines`: the header, then each printed item's block, then the footer.
   * The ticket's own `disclaimer` is read by the source but never printed.
   */
  method BuildNonFiscalTicketLines(ticket: NonFiscalTicket, fmt: CurrencyFormat) returns (lines: seq<string>)
    ensures lines == NonFiscalTicketLines(ticket, fmt)
  {
    lines := BuildNonFiscalHeader(ticket);
    lines := AppendItems(lines, ticket.items, fmt, true);
    var footer := BuildNonFiscalFooter(ticket, fmt);
    lines := lines + footer;
  }

  /** The "Preferencia" line is in the header exactly when the take-away preference is known. */
  lemma PreferenceLineIffKnown(ticket: NonFiscalTicket)
    ensures (exists k | 0 <= k < |NonFiscalHeader(ticket)| :: StartsWith(NonFiscalHeader(ticket)[k], "Preferencia: "))
        <==> ticket.isTakeAway.Some?
  {
    var h := NonFiscalHeader(ticket);
    if ticket.isTakeAway.Some? {
      assert StartsWith(h[3], "Preferencia: ");
    } else {
      forall k | 0 <= k < |h| ensures !StartsWith(h[k], "Preferencia: ") {
        NotPreferenceLine(ticket, k);
      }
    }
  }

  /** Without a known preference, no header line starts with `"Preferencia: "`: each starts with another character. */
  lemma NotPreferenceLine(ticket: NonFiscalTicket, k: nat)
    requires ticket.isTakeAway.None? && k < |NonFiscalHeader(ticket)|
    ensures !StartsWith(NonFiscalHeader(ticket)[k], "Preferencia: ")
  {
    var ident := IdentifierLines(ticket);
    var h := NonFiscalHeader(ticket);
    assert h == [DoubleRule(), "TU NUMERO DE PEDIDO ES: " + ticket.orderNumber, ""] + ident + [TableHeader(), SingleRule()];
    RepeatChars('=', LineWidth);
    RepeatChars('-', LineWidth);
    if 3 <= k < 3 + |ident| {
      assert h[k] == ident[k - 3];
    }
    FirstCharRulesOut(h[k], "Preferencia: ");
  }

  /**
   * The "Identificador" line is in the header exactly when the order is not for take-away and
   * it has a non-empty identifier.
   */
  lemma IdentifierLineIff(ticket: NonFiscalTicket)
    ensures (exists k | 0 <= k < |NonFiscalHeader(ticket)| :: StartsWith(NonFiscalHeader(ticket)[k], "Identificador: "))
        <==> (ticket.isTakeAway != Some(true) && ticket.identifier.Some? && ticket.identifier.value != "")
  {
    var h := NonFiscalHeader(ticket);
    if ticket.isTakeAway != Some(true) && ticket.identifier.Some? && ticket.identifier.value != "" {
      assert StartsWith(h[3 + |PreferenceLines(ticket)|], "Identificador: ");
    } else {
      forall k | 0 <= k < |h| ensures !StartsWith(h[k], "Identificador: ") {
        NotIdentifierLine(ticket, k);
      }
    }
  }

  /** Without a printed identifier, no header line starts with `"Identificador: "`: each starts with another character. */
  lemma NotIdentifierLine(ticket: NonFiscalTicket, k: nat)
    requires !(ticket.isTakeAway != Some(true) && ticket.identifier.Some? && ticket.identifier.value != "")
    requires k < |NonFiscalHeader(ticket)|
    ensures !StartsWith(NonFiscalHeader(ticket)[k], "Identificador: ")
  {
    var pref := PreferenceLines(ticket);
    var lead := TableLeadLines(ticket);
    var h := NonFiscalHeader(ticket);
    assert h == [DoubleRule(), "TU NUMERO DE PEDIDO ES: " + ticket.orderNumber, ""] + pref + lead + [TableHeader(), SingleRule()];
    RepeatChars('=', LineWidth);
    RepeatChars('-', LineWidth);
    if 3 <= k < 3 + |pref| {
      assert h[k] == pref[k - 3];
    } else if 3 + |pref| <= k < 3 + |pref| + |lead| {
      assert h[k] == lead[k - 3 - |pref|];
    }
    FirstCharRulesOut(h[k], "Identificador: ");
  }

  /** The ticket's own `disclaimer` is never printed: whatever it holds, the lines are the same. */
  lemma DisclaimerIsIgnored(ticket: NonFiscalTicket, disclaimer: Option<string>, fmt: CurrencyFormat)
    ensures NonFiscalTicketLines(ticket.(disclaimer := disclaimer), fmt) == NonFiscalTicketLines(ticket, fmt)
  {
    var other := ticket.(disclaimer := disclaimer);
    assert NonFiscalHeader(other) == NonFiscalHeader(ticket);
    assert NonFiscalFooter(other, fmt) == NonFiscalFooter(ticket, fmt);
  }

  /** Every non-fiscal ticket ends with the fixed centred disclaimer block and two blank lines. */
  lemma EndsWithDisclaimer(ticket: NonFiscalTicket, fmt: CurrencyFormat)
    ensures var lines := NonFiscalTicketLines(ticket, fmt);
      |lines| >= 6 && lines[|lines| - 6..] == DisclaimerLines() + ["", ""]
  {
    var body := NonFiscalHeader(ticket) + ItemsLines(ticket.items, fmt, true);
    var dated := [SingleRule()] + [TotalLine(ticket.total, fmt)] + [""] + [DoubleRule()] + [""]
      + [CenterText("----- " + ticket.dateTime + " -----")] + [""];
    var disclaimer := DisclaimerLines();
    assert NonFiscalTicketLines(ticket, fmt) == body + (dated + disclaimer + [""] + [""]);
    EndsWithBlockAndPair(body, dated, disclaimer, "");
  }

  // ---------------------------------------------------------------------------------------
  // Fiscal ticket

  function CaeText(cae: Option<string>): string {
    if cae.Some? then "CAE:" + cae.value else ""
  }

  function FechaText(fechaVencimiento: Option<string>): string {
    if fechaVencimiento.Some? then "Fech Vto.: " + fechaVencimiento.value else ""
  }

  /** The authorisation code and its expiry: on one line when both are present and fit `width`, otherwise each on its own line. */
  function CaeLines(cae: Option<string>, fechaVencimiento: Option<string>, width: int): seq<string> {
    var caeText := CaeText(cae);
    var fechaText := FechaText(fechaVencimiento);
    if caeText != "" && fechaText != "" then
      var combined := caeText + " " + fechaText;
      if |combined| <= width then [combined] else [caeText, fechaText]
    else
      (if caeText != "" then [caeText] else []) + (if fechaText != "" then [fechaText] else [])
  }

  /** The CAE block: absent when neither piece is present, otherwise the CAE lines between two `" "` lines. */
  function CaeBlock(cae: Option<string>, fechaVencimiento: Option<string>, width: int): seq<string> {
    if cae.None? && fechaVencimiento.None? then [] else [" "] + CaeLines(cae, fechaVencimiento, width) + [" "]
  }

  /**
   * The CAE rule in all four cases: both pieces on one line when they fit the width, on two lines
   * in order when they do not, only the present piece when one is missing, and no block at all
   * when both are missing. The text layout applies it with `LineWidth`, the view layout with 48.
   */
  lemma CaeRule(cae: Option<string>, fecha: Option<string>, width: int)
    ensures cae.Some? && fecha.Some? && |"CAE:" + cae.value + " Fech Vto.: " + fecha.value| <= width ==>
      CaeLines(cae, fecha, width) == ["CAE:" + cae.value + " Fech Vto.: " + fecha.value]
    ensures cae.Some? && fecha.Some? && |"CAE:" + cae.value + " Fech Vto.: " + fecha.value| > width ==>
      CaeLines(cae, fecha, width) == ["CAE:" + cae.value, "Fech Vto.: " + fecha.value]
    ensures cae.Some? && fecha.None? ==> CaeLines(cae, fecha, width) == ["CAE:" + cae.value]
    ensures cae.None? && fecha.Some? ==> CaeLines(cae, fecha, width) == ["Fech Vto.: " + fecha.value]
    ensures cae.None? && fecha.None? <==> CaeBlock(cae, fecha, width) == []
  {
    if cae.Some? && fecha.Some? {
      var c := "CAE:" + cae.value;
      var f := "Fech Vto.: " + fecha.value;
      assert CaeText(cae) == c && CaeText(cae) != "";
      assert FechaText(fecha) == f && FechaText(fecha) != "";
      assert c + " " + f == "CAE:" + cae.value + " Fech Vto.: " + fecha.value;
    }
  }

  /** A combined CAE line is only ever emitted when it fits; a line wider than `width` is a single piece. */
  lemma CaeLinesFit(cae: Option<string>, fecha: Option<string>, width: int)
    ensures forall k | 0 <= k < |CaeLines(cae, fecha, width)| ::
      |CaeLines(cae, fecha, width)[k]| <= width
      || CaeLines(cae, fecha, width)[k] == CaeText(cae)
      || CaeLines(cae, fecha, width)[k] == FechaText(fecha)
  {
  }

  /**
   * The view layout's CAE width is the narrower one: whenever it puts both pieces on one line,
   * the text layout does too, and the two layouts differ only where the view splits a line
   * that the text layout keeps whole.
   */
  lemma ViewCaeNarrowerThanText(cae: Option<string>, fecha: Option<string>)
    ensures |CaeLines(cae, fecha, ViewCaeWidth)| == 1 && cae.Some? && fecha.Some? ==>
      CaeLines(cae, fecha, LineWidth) == CaeLines(cae, fecha, ViewCaeWidth)
    ensures CaeLines(cae, fecha, ViewCaeWidth) == CaeLines(cae, fecha, LineWidth)
      || (|CaeLines(cae, fecha, ViewCaeWidth)| == 2 && |CaeLines(cae, fecha, LineWidth)| == 1)
  {
  }

  /** The `ORIGINAL Cod.` value: the ticket number when it has at most two characters, otherwise `"15"`. */
  function OriginalCode(numeroT: string): (r: string)
    ensures |r| <= 2
    ensures |numeroT| <= 2 ==> r == numeroT
    ensures |numeroT| > 2 ==> r == "15"
  {
    if |numeroT| <= 2 then numeroT else "15"
  }

  /** Everything above the item lines of a fiscal ticket. */
  function FiscalHeader(ticket: FiscalTicket): seq<string> {
    var info := ticket.fiscalInfo;
    [CenterText(ticket.tipoComprobante.GetOr("Recibo C"))]
      + ["ORIGINAL Cod.: " + OriginalCode(info.numeroT)]
      + [DoubleRule()]
      + ["RAZON SOCIAL: " + info.razonSocial]
      + ["CUIT: " + info.cuit]
      + ["DIRECCION: " + info.direccion]
      + ["LOCALIDAD: " + info.localidad]
      + ["Nro de insc. IIBB: " + info.numeroInscripcionIIBB]
      + [info.responsable]
      + ["Inicio Actividades: " + info.inicioActividades]
      + [SingleRule()]
      + ["FECHA: " + info.fecha]
      + ["Nro T: " + info.numeroT]
      + ["Pto. Vta.:" + info.puntoVenta]
      + (if info.consumidorFinal then ["CONSUMIDOR FINAL"] else [])
      + [SingleRule()] + [TableHeader()] + [SingleRule()]
  }

  function RegimeLines(info: FiscalInfo): seq<string> {
    if info.regimenFiscal.Some? then [info.regimenFiscal.value] else []
  }

  function VatLines(info: FiscalInfo, fmt: CurrencyFormat): seq<string> {
    if info.ivaContenido.Some? then ["IVA contenido: " + fmt(info.ivaContenido.value)] else []
  }

  function OtherTaxLines(info: FiscalInfo, fmt: CurrencyFormat): seq<string> {
    if info.otrosImpuestosNacionales.Some? then ["Otro imp. Nacionales Indirectos: " + fmt(info.otrosImpuestosNacionales.value)] else []
  }

  function QrLines(info: FiscalInfo): seq<string> {
    if info.qrCodeData.Some? then ["[QR CODE]", ""] else []
  }

  /** The fixed footer, centred. */
  function AuthorityFooter(): seq<string> {
    [CenterText("Comprobable Autorizado"),
     CenterText("Esta Administracion Federal no se responsabiliza por los datos"),
     CenterText("ingresados en el detalle de la operacion")]
  }

  /** What follows the CAE block: the double rule, the QR marker, a rule and the fixed footer. */
  function FiscalClosing(info: FiscalInfo): seq<string> {
    [DoubleRule()] + [""] + QrLines(info) + [" "] + [SingleRule()] + [""] + AuthorityFooter() + [""] + [""]
  }

  /** What comes before the CAE block in a fiscal footer: a rule, the total, a rule and the tax lines. */
  function FiscalLead(ticket: FiscalTicket, fmt: CurrencyFormat): seq<string> {
    var info := ticket.fiscalInfo;
    [SingleRule()] + [TotalLine(ticket.total, fmt)] + [SingleRule()] + RegimeLines(info) + VatLines(info, fmt) + OtherTaxLines(info, fmt)
  }

  /** Everything below the item lines of a fiscal ticket. */
  function FiscalFooter(ticket: FiscalTicket, fmt: CurrencyFormat): seq<string> {
    FiscalLead(ticket, fmt) + CaeBlock(ticket.fiscalInfo.cae, ticket.fiscalInfo.fechaVencimiento, LineWidth) + FiscalClosing(ticket.fiscalInfo)
  }

  /** The lines of `buildFiscalTicketLines`. */
  function FiscalTicketLines(ticket: FiscalTicket, fmt: CurrencyFormat): seq<string> {
    FiscalHeader(ticket) + ItemsLines(ticket.items, fmt, false) + FiscalFooter(ticket, fmt)
  }

  /** The header part of `buildFiscalTicketLines`: voucher type, seller, transaction and table head. */
  method BuildFiscalHeader(ticket: FiscalTicket) returns (lines: seq<string>)
    ensures lines == FiscalHeader(ticket)
  {
    var info := ticket.fiscalInfo;
    var tipoComprobante := ticket.tipoComprobante.GetOr("Recibo C");
    lines := [CenterText(tipoComprobante)];
    lines := lines + ["ORIGINAL Cod.: " + (if |info.numeroT| <= 2 then info.numeroT else "15")];
    lines := lines + [Repeat('=', LineWidth)];
    lines := lines + ["RAZON SOCIAL: " + info.razonSocial];
    lines := lines + ["CUIT: " + info.cuit];
    lines := lines + ["DIRECCION: " + info.direccion];
    lines := lines + ["LOCALIDAD: " + info.localidad];
    lines := lines + ["Nro de insc. IIBB: " + info.numeroInscripcionIIBB];
    lines := lines + [info.responsable];
    lines := lines + ["Inicio Actividades: " + info.inicioActividades];
    lines := lines + [Repeat('-', LineWidth)];
    lines := lines + ["FECHA: " + info.fecha];
    lines := lines + ["Nro T: " + info.numeroT];
    lines := lines + ["Pto. Vta.:" + info.puntoVenta];
    ghost var seller := lines;
    if info.consumidorFinal {
      lines := lines + ["CONSUMIDOR FINAL"];
    }
    assert lines == seller + (if info.consumidorFinal then ["CONSUMIDOR FINAL"] else []);
    lines := lines + [Repeat('-', LineWidth)];
    lines := lines + [TableHeader()];
    lines := lines + [Repeat('-', LineWidth)];
  }

  /** The CAE part of `buildFiscalTicketLines`, for a line `width` wide. */
  method BuildCaeBlock(cae: Option<string>, fechaVencimiento: Option<string>, width: int) returns (block: seq<string>)
    ensures block == CaeBlock(cae, fechaVencimiento, width)
  {
    block := [];
    if cae.Some? || fechaVencimiento.Some? {
      block := block + [" "];
      var caeText := if cae.Some? then "CAE:" + cae.value else "";
      var fechaText := if fechaVencimiento.Some? then "Fech Vto.: " + fechaVencimiento.value else "";
      if caeText != "" && fechaText != "" {
        var combined := caeText + " " + fechaText;
        if |combined| <= width {
          block := block + [combined];
        } else {
          block := block + [caeText];
          block := block + [fechaText];
        }
      } else {
        if caeText != "" {
          block := block + [caeText];
        }
        if fechaText != "" {
          block := block + [fechaText];
        }
      }
      block := block + [" "];
    }
  }

  /** The closing part of `buildFiscalTicketLines`: double rule, QR marker, rule and fixed footer. */
  method BuildFiscalClosing(info: FiscalInfo) returns (lines: seq<string>)
    ensures lines == FiscalClosing(info)
  {
    lines := [Repeat('=', LineWidth)];
    lines := lines + [""];
    ghost var ruled := lines;
    if info.qrCodeData.Some? {
      lines := lines + ["[QR CODE]"];
      lines := lines + [""];
      AppendAssoc(ruled, ["[QR CODE]"], [""]);
    }
    assert lines == ruled + QrLines(info);
    lines := lines + [" "];
    lines := lines + [Repeat('-', LineWidth)];
    lines := lines + [""];
    ghost var closed := lines;
    lines := lines + [CenterText("Comprobable Autorizado")];
    lines := lines + [CenterText("Esta Administracion Federal no se responsabiliza por los datos")];
    lines := lines + [CenterText("ingresados en el detalle de la operacion")];
    assert lines == closed + AuthorityFooter();
    lines := lines + [""];
    lines := lines + [""];
  }

  /** The footer part of `buildFiscalTicketLines`: total, tax lines, CAE block and closing. */
  method BuildFiscalFooter(ticket: FiscalTicket, fmt: CurrencyFormat) returns (lines: seq<string>)
    ensures lines == FiscalFooter(ticket, fmt)
  {
    var info := ticket.fiscalInfo;
    lines := [Repeat('-', LineWidth)];
    lines := lines + [TotalLine(ticket.total, fmt)];
    lines := lines + [Repeat('-', LineWidth)];
    ghost var before := lines;
    if info.regimenFiscal.Some? {
      lines := lines + [info.regimenFiscal.value];
    }
    assert lines == before + RegimeLines(info);
    before := lines;
    if info.ivaContenido.Some? {
      lines := lines + ["IVA contenido: " + fmt(info.ivaContenido.value)];
    }
    assert lines == before + VatLines(info, fmt);
    before := lines;
    if info.otrosImpuestosNacionales.Some? {
      lines := lines + ["Otro imp. Nacionales Indirectos: " + fmt(info.otrosImpuestosNacionales.value)];
    }
    assert lines == before + OtherTaxLines(info, fmt);
    var cae := BuildCaeBlock(info.cae, info.fechaVencimiento, LineWidth);
    lines := lines + cae;
    var closing := BuildFiscalClosing(info);
    lines := lines + closing;
  }

  /** `buildFiscalTicketLines`: the header, then each printed item's block without notes, then the footer. */
  method BuildFiscalTicketLines(ticket: FiscalTicket, fmt: CurrencyFormat) returns (lines: seq<string>)
    ensures lines == FiscalTicketLines(ticket, fmt)
  {
    lines := BuildFiscalHeader(ticket);
    lines := AppendItems(lines, ticket.items, fmt, false);
    var footer := BuildFiscalFooter(ticket, fmt);
    lines := lines + footer;
  }

  /** The total is the second line of the footer's lead. */
  lemma FiscalLeadHasTotal(ticket: FiscalTicket, fmt: CurrencyFormat)
    ensures |FiscalLead(ticket, fmt)| == 3 + |RegimeLines(ticket.fiscalInfo)| + |VatLines(ticket.fiscalInfo, fmt)| + |OtherTaxLines(ticket.fiscalInfo, fmt)|
    ensures FiscalLead(ticket, fmt)[1] == TotalLine(ticket.total, fmt)
  {
  }

  /** The closing opens with the double rule. */
  lemma FiscalClosingOpensWithRule(info: FiscalInfo)
    ensures |FiscalClosing(info)| > 0 && FiscalClosing(info)[0] == DoubleRule()
  {
  }

  /**
   * Where the CAE block sits in a fiscal ticket's footer (which follows the header and the item
   * lines): after the rule, the total, the rule and the tax lines, and right before the closing
   * double rule.
   */
  lemma FiscalCaePlacement(ticket: FiscalTicket, fmt: CurrencyFormat)
    ensures var footer := FiscalFooter(ticket, fmt);
      var info := ticket.fiscalInfo;
      var start := |FiscalLead(ticket, fmt)|;
      var block := CaeBlock(info.cae, info.fechaVencimiento, LineWidth);
      && start == 3 + |RegimeLines(info)| + |VatLines(info, fmt)| + |OtherTaxLines(info, fmt)|
      && start + |block| < |footer|
      && footer[1] == TotalLine(ticket.total, fmt)
      && footer[start..start + |block|] == block
      && footer[start + |block|] == DoubleRule()
  {
    var info := ticket.fiscalInfo;
    FiscalLeadHasTotal(ticket, fmt);
    FiscalClosingOpensWithRule(info);
    PlacedBetween(FiscalFooter(ticket, fmt), [], FiscalLead(ticket, fmt), CaeBlock(info.cae, info.fechaVencimiento, LineWidth),
      FiscalClosing(info), TotalLine(ticket.total, fmt), DoubleRule());
  }
}
