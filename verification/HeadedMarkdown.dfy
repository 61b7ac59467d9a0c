/** Headed markdown documents: an H1 title, `Label: value` lines and bulleted lists. One parser and one
    renderer for every table of fields; src/work_documents.rs and src/recon_packets.rs differ in the
    dialect only. */
module HeadedMarkdown {
  import opened Sequences
  import opened Wrappers
  import opened Text

  datatype Dialect = WorkDialect | ReconDialect

  /** The fields `F` of a family of documents: name, kind, and the list items that stand for nothing. */
  datatype Table<!F> = Table(
    name: F -> string,
    isList: F -> bool,
    lookup: string -> Option<F>,
    placeholder: (F, string) -> bool)

  datatype Value = Scalar(text: string) | List(items: seq<string>)

  /** The two maps of the parser as one: a field is of one kind only. */
  type Fields<F> = map<F, Value>

  datatype Error<+F> =
    | EmptyDocument
    | Frontmatter
    | NoTitle
    | EmptyTitle
    | RepeatedField(field: F)
    | EmptyScalar(field: F)
    | ItemUnderScalar(field: F)
    | InvalidItem(field: F)

  // ---------------------------------------------------------------- lines

  predicate IsAlpha(c: char) { 'a' <= c <= 'z' || 'A' <= c <= 'Z' }

  predicate IsLabelChar(c: char) { IsAlpha(c) || '0' <= c <= '9' || c == '-' }

  predicate IsLabel(name: string) {
    name != "" && IsAlpha(name[0]) && forall i :: 0 <= i < |name| ==> IsLabelChar(name[i])
  }

  /** `Label: value`, the value trimmed and possibly empty. */
  function FieldLine(line: string): Option<(string, string)> {
    var (name, value) :- SplitOnce(line, ':');
    if IsLabel(name) then Some((name, Trim(value))) else None
  }

  /** `- item`, the item trimmed and not empty. */
  function ListItem(line: string): Option<string> {
    if "- " <= line && Trim(line[2..]) != "" then Some(Trim(line[2..])) else None
  }

  /** `# title`, the title trimmed and possibly empty. */
  function H1Title(line: string): Option<string> {
    var trimmed := Trim(line);
    if "#" <= trimmed && |trimmed| > 1 && IsSpace(trimmed[1]) then Some(Trim(trimmed[2..])) else None
  }

  // ---------------------------------------------------------------- the parser, by remaining lines

  function SkipUnknown(lines: seq<string>): (rest: seq<string>)
    ensures |rest| <= |lines|
  {
    if lines == [] || FieldLine(Trim(lines[0])).Some? then lines else SkipUnknown(lines[1..])
  }

  /** The lines behind a scalar without a value, or None when a list item follows it. */
  function SkipBlankScalar(lines: seq<string>): (rest: Option<seq<string>>)
    ensures rest.Some? ==> |rest.value| <= |lines|
  {
    if lines == [] then Some(lines)
    else
      var candidate := Trim(lines[0]);
      if candidate == "" then SkipBlankScalar(lines[1..])
      else if FieldLine(candidate).None? && ListItem(candidate).Some? then None
      else Some(lines)
  }

  /** The items of a list block behind those already read, and the lines behind the block. */
  function ListBlock(lines: seq<string>, items: seq<string>): (r: Option<(seq<string>, seq<string>)>)
    ensures r.Some? ==> |r.value.1| <= |lines|
    decreases |lines|
  {
    if lines == [] then Some((items, lines))
    else
      var next := Trim(lines[0]);
      if next == "" then
        if items != [] then Some((items, lines[1..])) else ListBlock(lines[1..], items)
      else if FieldLine(next).Some? then Some((items, lines))
      else
        var item :- ListItem(next);
        ListBlock(lines[1..], items + [item])
  }

  function Meaningful<F>(t: Table<F>, f: F, items: seq<string>): (kept: seq<string>)
    ensures forall i :: 0 <= i < |kept| ==> kept[i] in items && !t.placeholder(f, kept[i])
  {
    if items == [] then []
    else if t.placeholder(f, items[0]) then Meaningful(t, f, items[1..])
    else [items[0]] + Meaningful(t, f, items[1..])
  }

  /** A known list field with its inline value and the lines behind it. */
  function ListValue<F>(t: Table<F>, dialect: Dialect, f: F, inlined: string, lines: seq<string>):
      (r: Option<(Value, seq<string>)>)
    ensures r.Some? ==> |r.value.1| <= |lines| && r.value.0.List?
  {
    if dialect == WorkDialect && inlined != "" then Some((List(Meaningful(t, f, [inlined])), lines))
    else
      var (items, rest) :- ListBlock(lines, if inlined == "" then [] else [inlined]);
      Some((List(Meaningful(t, f, items)), rest))
  }

  /** A known field that was not seen before: its value, if it has one, and the lines behind it. */
  function FieldValue<F>(t: Table<F>, dialect: Dialect, f: F, inlined: string, lines: seq<string>):
      (r: Result<(Option<Value>, seq<string>), Error<F>>)
    ensures r.Ok? ==> |r.value.1| <= |lines|
    ensures r.Ok? && r.value.0.Some? ==> r.value.0.value.List? == t.isList(f)
  {
    if t.isList(f) then
      match ListValue(t, dialect, f, inlined, lines)
      case Some((value, rest)) => Ok((Some(value), rest))
      case None => Err(InvalidItem(f))
    else if inlined != "" then Ok((Some(Scalar(inlined)), lines))
    else if dialect == ReconDialect then Err(EmptyScalar(f))
    else
      match SkipBlankScalar(lines)
      case Some(rest) => Ok((None, rest))
      case None => Err(ItemUnderScalar(f))
  }

  function Put<F>(fields: Fields<F>, f: F, value: Option<Value>): Fields<F> {
    if value.Some? then fields[f := value.value] else fields
  }

  function Body<F>(t: Table<F>, dialect: Dialect, lines: seq<string>, fields: Fields<F>): Result<Fields<F>, Error<F>>
    decreases |lines|
  {
    if lines == [] then Ok(fields)
    else
      match FieldLine(Trim(lines[0]))
      case None => Body(t, dialect, lines[1..], fields)
      case Some((name, inlined)) =>
        match t.lookup(name)
        case None => Body(t, dialect, SkipUnknown(lines[1..]), fields)
        case Some(f) =>
          if f in fields then Err(RepeatedField(f))
          else
            var (value, rest) :- FieldValue(t, dialect, f, inlined, lines[1..]);
            Body(t, dialect, rest, Put(fields, f, value))
  }

  /** The heading of a document, by its first line. */
  function Heading<F>(dialect: Dialect, lines: seq<string>): Result<string, Error<F>> {
    if lines == [] then Err(EmptyDocument)
    else if dialect == WorkDialect && Trim(lines[0]) == "---" then Err(Frontmatter)
    else
      match H1Title(lines[0])
      case None => Err(NoTitle)
      case Some(title) =>
        if title != "" then Ok(title) else Err(if dialect == WorkDialect then EmptyTitle else NoTitle)
  }

  function Parse<F>(t: Table<F>, dialect: Dialect, text: string): Result<(string, Fields<F>), Error<F>> {
    var lines := Lines(text);
    var title :- Heading(dialect, lines);
    var fields :- Body(t, dialect, lines[1..], map[]);
    Ok((title, fields))
  }

  // ---------------------------------------------------------------- the renderer

  function ItemLines(items: seq<string>): (lines: seq<string>)
    ensures |lines| == |items|
    ensures forall i :: 0 <= i < |items| ==> lines[i] == "- " + items[i]
  {
    if items == [] then [] else ["- " + items[0]] + ItemLines(items[1..])
  }

  function ScalarLine(name: string, text: string): string { name + [':'] + (" " + text) }

  function ListLine(name: string): string { name + [':'] + "" }

  /** The lines of one field; an absent field and an empty list have none. */
  function FieldLines<F>(t: Table<F>, f: F, doc: Fields<F>): seq<string> {
    if f !in doc then []
    else
      match doc[f]
      case Scalar(text) => [ScalarLine(t.name(f), text)]
      case List(items) => if items == [] then [] else ["", ListLine(t.name(f))] + ItemLines(items)
  }

  function BodyLines<F>(t: Table<F>, order: seq<F>, doc: Fields<F>): seq<string> {
    if order == [] then [] else FieldLines(t, order[0], doc) + BodyLines(t, order[1..], doc)
  }

  function Render<F>(t: Table<F>, title: string, order: seq<F>, doc: Fields<F>): string {
    JoinLines(["# " + title, ""] + BodyLines(t, order, doc)) + "\n"
  }

  // ---------------------------------------------------------------- what the parser lets through

  /** A value that can be written and read back: trimmed, not empty, on one line. */
  predicate Clean(text: string) { text != "" && Trimmed(text) && '\n' !in text }

  ghost predicate CleanField<F>(t: Table<F>, f: F, value: Value) {
    match value
    case Scalar(text) => !t.isList(f) && Clean(text)
    case List(items) =>
      t.isList(f) && forall i :: 0 <= i < |items| ==> Clean(items[i]) && !t.placeholder(f, items[i])
  }

  ghost predicate CleanFields<F>(t: Table<F>, fields: Fields<F>) {
    forall f :: f in fields ==> CleanField(t, f, fields[f])
  }

  ghost predicate NoFeeds(lines: seq<string>) {
    forall i :: 0 <= i < |lines| ==> '\n' !in lines[i]
  }

  lemma NoFeedsTail(lines: seq<string>)
    requires NoFeeds(lines) && lines != []
    ensures NoFeeds(lines[1..])
  {}

  lemma FieldLineClean(line: string)
    requires '\n' !in line && FieldLine(Trim(line)).Some?
    ensures var value := FieldLine(Trim(line)).value.1; value == "" || Clean(value)
  {
    TrimTrims(line);
    SplitOnceParts(Trim(line), ':');
    TrimTrims(SplitOnce(Trim(line), ':').value.1);
  }

  lemma ListItemClean(line: string)
    requires '\n' !in line && ListItem(Trim(line)).Some?
    ensures Clean(ListItem(Trim(line)).value)
  {
    TrimTrims(line);
    TrimTrims(Trim(line)[2..]);
  }

  ghost predicate AllClean(items: seq<string>) { forall i :: 0 <= i < |items| ==> Clean(items[i]) }

  lemma {:induction false} ListBlockClean(lines: seq<string>, items: seq<string>)
    requires NoFeeds(lines) && AllClean(items) && ListBlock(lines, items).Some?
    ensures AllClean(ListBlock(lines, items).value.0) && NoFeeds(ListBlock(lines, items).value.1)
    decreases |lines|
  {
    if lines != [] {
      NoFeedsTail(lines);
      var next := Trim(lines[0]);
      if next == "" {
        if items == [] { ListBlockClean(lines[1..], items); }
      } else if FieldLine(next).None? {
        ListItemClean(lines[0]);
        ListBlockClean(lines[1..], items + [ListItem(next).value]);
      }
    }
  }

  lemma {:induction false} SkipsKeepNoFeeds(lines: seq<string>)
    requires NoFeeds(lines)
    ensures NoFeeds(SkipUnknown(lines))
    ensures SkipBlankScalar(lines).Some? ==> NoFeeds(SkipBlankScalar(lines).value)
  {
    if lines != [] { SkipsKeepNoFeeds(lines[1..]); }
  }

  lemma FieldValueClean<F>(t: Table<F>, dialect: Dialect, f: F, inlined: string, lines: seq<string>)
    requires NoFeeds(lines) && (inlined == "" || Clean(inlined))
    requires FieldValue(t, dialect, f, inlined, lines).Ok?
    ensures NoFeeds(FieldValue(t, dialect, f, inlined, lines).value.1)
    ensures var value := FieldValue(t, dialect, f, inlined, lines).value.0;
            value.Some? ==> CleanField(t, f, value.value)
  {
    SkipsKeepNoFeeds(lines);
    if t.isList(f) && (dialect == ReconDialect || inlined == "") {
      ListBlockClean(lines, if inlined == "" then [] else [inlined]);
    }
  }

  lemma {:induction false} BodyClean<F>(t: Table<F>, dialect: Dialect, lines: seq<string>, fields: Fields<F>)
    requires NoFeeds(lines) && CleanFields(t, fields) && Body(t, dialect, lines, fields).Ok?
    ensures CleanFields(t, Body(t, dialect, lines, fields).value)
    decreases |lines|
  {
    if lines != [] {
      NoFeedsTail(lines);
      var line := FieldLine(Trim(lines[0]));
      if line.None? {
        BodyClean(t, dialect, lines[1..], fields);
      } else {
        var (name, inlined) := line.value;
        var found := t.lookup(name);
        if found.None? {
          SkipsKeepNoFeeds(lines[1..]);
          BodyClean(t, dialect, SkipUnknown(lines[1..]), fields);
        } else {
          FieldLineClean(lines[0]);
          FieldValueClean(t, dialect, found.value, inlined, lines[1..]);
          var (value, rest) := FieldValue(t, dialect, found.value, inlined, lines[1..]).value;
          BodyClean(t, dialect, rest, Put(fields, found.value, value));
        }
      }
    }
  }

  lemma HeadingClean<F>(dialect: Dialect, lines: seq<string>)
    requires NoFeeds(lines) && Heading<F>(dialect, lines).Ok?
    ensures Clean(Heading<F>(dialect, lines).value)
  {
    TrimTrims(lines[0]);
    TrimTrims(Trim(lines[0])[2..]);
  }

  /** Whatever text is accepted, every value that comes out is clean. */
  lemma ParseClean<F>(t: Table<F>, dialect: Dialect, text: string)
    requires Parse(t, dialect, text).Ok?
    ensures Clean(Parse(t, dialect, text).value.0)
    ensures CleanFields(t, Parse(t, dialect, text).value.1)
  {
    var lines := Lines(text);
    LinesHaveNoFeed(text);
    HeadingClean<F>(dialect, lines);
    NoFeedsTail(lines);
    BodyClean(t, dialect, lines[1..], map[]);
  }

  // ---------------------------------------------------------------- rendered documents parse back

  /** Labels are well formed and looked up by what they label. */
  ghost predicate ValidTable<F(!new)>(t: Table<F>) {
    forall f :: IsLabel(t.name(f)) && t.lookup(t.name(f)) == Some(f)
  }

  /** A document that can be written: clean, and with no list that would leave no line. */
  ghost predicate Writable<F>(t: Table<F>, doc: Fields<F>) {
    CleanFields(t, doc) && forall f :: f in doc ==> doc[f] != List([])
  }

  lemma {:induction false} LabelHasNoColon(name: string)
    requires IsLabel(name)
    ensures ':' !in name
  {
    assert forall i :: 0 <= i < |name| ==> name[i] != ':';
  }

  lemma LabelStarts(name: string, rest: string)
    requires IsLabel(name) && rest != "" && !IsSpace(rest[|rest| - 1])
    ensures Trim(name + rest) == name + rest && '\n' !in name
    ensures Trimmed(name + rest)
  {
    TrimTrims(name + rest);
    assert forall i :: 0 <= i < |name| ==> name[i] != '\n';
  }

  /** A line made of a label and what follows the colon reads as that label and value. */
  lemma FieldLineReads(name: string, tail: string)
    requires IsLabel(name) && (tail == "" || !IsSpace(tail[|tail| - 1]))
    ensures FieldLine(Trim(name + [':'] + tail)) == Some((name, Trim(tail)))
  {
    LabelHasNoColon(name);
    LabelStarts(name, [':'] + tail);
    assert name + [':'] + tail == name + ([':'] + tail);
    SplitOnceAt(name, ':', tail);
  }

  lemma ScalarLineReads(name: string, text: string)
    requires IsLabel(name) && Clean(text)
    ensures FieldLine(Trim(ScalarLine(name, text))) == Some((name, text))
    ensures SingleLine(ScalarLine(name, text))
  {
    FieldLineReads(name, " " + text);
    TrimSpaces(text);
    var line := ScalarLine(name, text);
    assert forall i :: 0 <= i < |name| ==> name[i] != '\n';
    assert line == name + ([':'] + (" " + text));
    assert line[|line| - 1] == text[|text| - 1];
  }

  lemma ListLineReads(name: string)
    requires IsLabel(name)
    ensures FieldLine(Trim(ListLine(name))) == Some((name, ""))
    ensures SingleLine(ListLine(name))
  {
    FieldLineReads(name, "");
    var line := ListLine(name);
    assert forall i :: 0 <= i < |name| ==> name[i] != '\n';
    assert line[|line| - 1] == ':';
  }

  lemma ItemLineReads(item: string)
    requires Clean(item)
    ensures var line := Trim("- " + item);
            line != "" && FieldLine(line).None? && ListItem(line) == Some(item)
    ensures SingleLine("- " + item)
  {
    var line := "- " + item;
    TrimTrims(line);
    TrimTrims(item);
    assert line[0] == '-' && line[|line| - 1] == item[|item| - 1];
    assert line[2..] == item;
    DashIsNoLabel(item);
  }

  lemma DashIsNoLabel(item: string)
    ensures FieldLine("- " + item).None?
  {
    var line := "- " + item;
    SplitOnceParts(line, ':');
    var split := SplitOnce(line, ':');
    if split.Some? {
      var (before, after) := split.value;
      assert before == "" || before[0] == (before + [':'] + after)[0];
    }
  }

  /** A list block ends in front of these lines. */
  predicate Breaks(lines: seq<string>) {
    lines == [] || Trim(lines[0]) == "" || FieldLine(Trim(lines[0])).Some?
  }

  function SkipBlank(lines: seq<string>): seq<string> {
    if lines != [] && Trim(lines[0]) == "" then lines[1..] else lines
  }

  lemma ListBlockEnds(rest: seq<string>, items: seq<string>)
    requires Breaks(rest) && items != []
    ensures ListBlock(rest, items) == Some((items, SkipBlank(rest)))
  {}

  lemma ListBlockStep(line: string, item: string, rest: seq<string>, items: seq<string>)
    requires Trim(line) != "" && FieldLine(Trim(line)).None? && ListItem(Trim(line)) == Some(item)
    ensures ListBlock([line] + rest, items) == ListBlock(rest, items + [item])
  {
    assert ([line] + rest)[1..] == rest;
  }

  lemma FirstLine(first: string, lines: seq<string>, rest: seq<string>)
    ensures ([first] + lines) + rest == [first] + (lines + rest)
  {}

  lemma FirstItem(items: seq<string>, before: seq<string>)
    requires items != []
    ensures (before + [items[0]]) + items[1..] == before + items
  {}

  lemma {:induction false} ListBlockReads(items: seq<string>, rest: seq<string>, before: seq<string>)
    requires AllClean(items) && Breaks(rest) && before + items != []
    ensures ListBlock(ItemLines(items) + rest, before) == Some((before + items, SkipBlank(rest)))
    decreases |items|
  {
    if items == [] {
      assert ItemLines(items) + rest == rest && before + items == before;
      ListBlockEnds(rest, before);
    } else {
      ItemLineReads(items[0]);
      FirstLine("- " + items[0], ItemLines(items[1..]), rest);
      FirstItem(items, before);
      ListBlockStep("- " + items[0], items[0], ItemLines(items[1..]) + rest, before);
      ListBlockReads(items[1..], rest, before + [items[0]]);
    }
  }

  lemma {:induction false} MeaningfulKeeps<F>(t: Table<F>, f: F, items: seq<string>)
    requires forall i :: 0 <= i < |items| ==> !t.placeholder(f, items[i])
    ensures Meaningful(t, f, items) == items
  {
    if items != [] { MeaningfulKeeps(t, f, items[1..]); }
  }

  lemma BodySkipsBlank<F>(t: Table<F>, dialect: Dialect, lines: seq<string>, fields: Fields<F>)
    ensures Body(t, dialect, SkipBlank(lines), fields) == Body(t, dialect, lines, fields)
  {}

  lemma BodyBlankStep<F>(t: Table<F>, dialect: Dialect, lines: seq<string>, fields: Fields<F>)
    ensures Body(t, dialect, [""] + lines, fields) == Body(t, dialect, lines, fields)
  {
    assert ([""] + lines)[1..] == lines;
  }

  lemma BodyFieldStep<F>(t: Table<F>, dialect: Dialect, line: string, name: string, inlined: string, f: F,
                         value: Value, lines: seq<string>, rest: seq<string>, fields: Fields<F>)
    requires FieldLine(Trim(line)) == Some((name, inlined)) && t.lookup(name) == Some(f) && f !in fields
    requires FieldValue(t, dialect, f, inlined, lines) == Ok((Some(value), rest))
    ensures Body(t, dialect, [line] + lines, fields) == Body(t, dialect, rest, fields[f := value])
  {
    assert ([line] + lines)[1..] == lines;
  }

  lemma ScalarFieldReads<F(!new)>(t: Table<F>, dialect: Dialect, f: F, text: string, rest: seq<string>,
                                   fields: Fields<F>)
    requires ValidTable(t) && !t.isList(f) && Clean(text) && f !in fields
    ensures Body(t, dialect, [ScalarLine(t.name(f), text)] + rest, fields)
            == Body(t, dialect, rest, fields[f := Scalar(text)])
  {
    var name := t.name(f);
    ScalarLineReads(name, text);
    BodyFieldStep(t, dialect, ScalarLine(name, text), name, text, f, Scalar(text), rest, rest, fields);
  }

  lemma ListHeaderReads<F(!new)>(t: Table<F>, dialect: Dialect, f: F, items: seq<string>, block: seq<string>,
                                 rest: seq<string>, fields: Fields<F>)
    requires ValidTable(t) && CleanField(t, f, List(items)) && f !in fields
    requires ListBlock(block, []) == Some((items, rest))
    ensures Body(t, dialect, [""] + ([ListLine(t.name(f))] + block), fields)
            == Body(t, dialect, rest, fields[f := List(items)])
  {
    var name := t.name(f);
    BodyBlankStep(t, dialect, [ListLine(name)] + block, fields);
    ListLineReads(name);
    MeaningfulKeeps(t, f, items);
    BodyFieldStep(t, dialect, ListLine(name), name, "", f, List(items), block, rest, fields);
  }

  lemma ListFieldReads<F(!new)>(t: Table<F>, dialect: Dialect, f: F, items: seq<string>, rest: seq<string>,
                                 fields: Fields<F>)
    requires ValidTable(t) && CleanField(t, f, List(items)) && items != [] && f !in fields && Breaks(rest)
    ensures Body(t, dialect, [""] + ([ListLine(t.name(f))] + (ItemLines(items) + rest)), fields)
            == Body(t, dialect, rest, fields[f := List(items)])
  {
    ListBlockReads(items, rest, []);
    assert [] + items == items;
    ListHeaderReads(t, dialect, f, items, ItemLines(items) + rest, SkipBlank(rest), fields);
    BodySkipsBlank(t, dialect, rest, fields[f := List(items)]);
  }

  lemma FieldReads<F(!new)>(t: Table<F>, dialect: Dialect, f: F, doc: Fields<F>, rest: seq<string>, fields: Fields<F>)
    requires ValidTable(t) && Writable(t, doc) && f !in fields && Breaks(rest)
    ensures Body(t, dialect, FieldLines(t, f, doc) + rest, fields)
            == Body(t, dialect, rest, if f in doc then fields[f := doc[f]] else fields)
  {
    if f !in doc {
      assert FieldLines(t, f, doc) + rest == rest;
    } else {
      match doc[f] {
        case Scalar(text) => ScalarFieldReads(t, dialect, f, text, rest, fields);
        case List(items) =>
          assert FieldLines(t, f, doc) + rest == [""] + ([ListLine(t.name(f))] + (ItemLines(items) + rest));
          ListFieldReads(t, dialect, f, items, rest, fields);
      }
    }
  }

  lemma FieldLinesAreLines<F(!new)>(t: Table<F>, f: F, doc: Fields<F>)
    requires ValidTable(t) && CleanFields(t, doc)
    ensures forall i :: 0 <= i < |FieldLines(t, f, doc)| ==> SingleLine(FieldLines(t, f, doc)[i])
    ensures Breaks(FieldLines(t, f, doc))
  {
    if f in doc {
      match doc[f] {
        case Scalar(text) => ScalarLineReads(t.name(f), text);
        case List(items) =>
          ListLineReads(t.name(f));
          forall i | 0 <= i < |items| ensures SingleLine("- " + items[i]) { ItemLineReads(items[i]); }
      }
    }
  }

  lemma {:induction false} BodyLinesBreak<F(!new)>(t: Table<F>, order: seq<F>, doc: Fields<F>)
    requires ValidTable(t) && CleanFields(t, doc)
    ensures Breaks(BodyLines(t, order, doc))
    ensures forall i :: 0 <= i < |BodyLines(t, order, doc)| ==> SingleLine(BodyLines(t, order, doc)[i])
  {
    if order != [] {
      FieldLinesAreLines(t, order[0], doc);
      BodyLinesBreak(t, order[1..], doc);
    }
  }

  /** `fields` with the entries of `doc` for the fields in `order`. */
  function Collected<F>(doc: Fields<F>, order: seq<F>, fields: Fields<F>): Fields<F> {
    if order == [] then fields
    else Collected(doc, order[1..], if order[0] in doc then fields[order[0] := doc[order[0]]] else fields)
  }

  lemma {:induction false} CollectedEntries<F>(doc: Fields<F>, order: seq<F>, fields: Fields<F>, f: F)
    ensures f in Collected(doc, order, fields) <==> f in fields || (f in doc && f in order)
    ensures f in doc && f in order ==> Collected(doc, order, fields)[f] == doc[f]
    ensures f in fields && f !in order ==> Collected(doc, order, fields)[f] == fields[f]
    decreases |order|
  {
    if order != [] {
      var next := if order[0] in doc then fields[order[0] := doc[order[0]]] else fields;
      CollectedEntries(doc, order[1..], next, f);
      if f == order[0] && f in doc && f !in order[1..] { assert f in next; }
    }
  }

  lemma CollectedAll<F>(doc: Fields<F>, order: seq<F>)
    requires forall f :: f in doc ==> f in order
    ensures Collected(doc, order, map[]) == doc
  {
    var all := Collected(doc, order, map[]);
    forall f | f in all ensures f in doc { CollectedEntries(doc, order, map[], f); }
    forall f | f in doc ensures f in all && all[f] == doc[f] { CollectedEntries(doc, order, map[], f); }
  }

  lemma {:induction false} BodyReads<F(!new)>(t: Table<F>, dialect: Dialect, order: seq<F>, doc: Fields<F>,
                                              fields: Fields<F>)
    requires ValidTable(t) && Writable(t, doc) && Distinct(order)
    requires forall f :: f in order ==> f !in fields
    ensures Body(t, dialect, BodyLines(t, order, doc), fields) == Ok(Collected(doc, order, fields))
    decreases |order|
  {
    if order != [] {
      var f := order[0];
      var next := if f in doc then fields[f := doc[f]] else fields;
      BodyLinesBreak(t, order[1..], doc);
      FieldReads(t, dialect, f, doc, BodyLines(t, order[1..], doc), fields);
      BodyReads(t, dialect, order[1..], doc, next);
    }
  }

  lemma HeadingReads<F>(dialect: Dialect, title: string, rest: seq<string>)
    requires Clean(title)
    ensures Heading<F>(dialect, ["# " + title] + rest) == Ok(title)
    ensures SingleLine("# " + title)
  {
    var line := "# " + title;
    TrimTrims(line);
    TrimTrims(title);
    assert line[0] == '#' && line[1] == ' ' && line[2..] == title;
    assert line[|line| - 1] == title[|title| - 1];
  }

  lemma ParseOfLines<F>(t: Table<F>, dialect: Dialect, text: string, title: string, body: seq<string>)
    requires Clean(title) && Lines(text) == ["# " + title] + ([""] + body)
    ensures Body(t, dialect, body, map[]).Ok? ==>
              Parse(t, dialect, text) == Ok((title, Body(t, dialect, body, map[]).value))
  {
    HeadingReads<F>(dialect, title, [""] + body);
    BodyBlankStep(t, dialect, body, map[]);
    assert Lines(text)[1..] == [""] + body;
  }

  lemma RenderedLines<F(!new)>(t: Table<F>, title: string, order: seq<F>, doc: Fields<F>)
    requires ValidTable(t) && CleanFields(t, doc) && Clean(title)
    ensures Lines(Render(t, title, order, doc)) == ["# " + title] + ([""] + BodyLines(t, order, doc))
  {
    var body := BodyLines(t, order, doc);
    var lines := ["# " + title, ""] + body;
    BodyLinesBreak(t, order, doc);
    HeadingReads<F>(WorkDialect, title, []);
    LinesOfJoined(lines);
    assert lines == ["# " + title] + ([""] + body);
  }

  /** Main result: for every table, dialect and field order, a written document is read back whole. */
  lemma RenderedParses<F(!new)>(t: Table<F>, dialect: Dialect, title: string, order: seq<F>, doc: Fields<F>)
    requires ValidTable(t) && Writable(t, doc) && Distinct(order) && Clean(title)
    requires forall f :: f in doc ==> f in order
    ensures Parse(t, dialect, Render(t, title, order, doc)) == Ok((title, doc))
  {
    RenderedLines(t, title, order, doc);
    BodyReads(t, dialect, order, doc, map[]);
    CollectedAll(doc, order);
    ParseOfLines(t, dialect, Render(t, title, order, doc), title, BodyLines(t, order, doc));
  }

  // ---------------------------------------------------------------- the loops, by index

  method SkipUnknownFieldBlock(lines: seq<string>, start: nat) returns (index: nat)
    requires start <= |lines|
    ensures start <= index <= |lines| && lines[index..] == SkipUnknown(lines[start..])
  {
    index := start;
    while index < |lines|
      invariant start <= index <= |lines|
      invariant SkipUnknown(lines[index..]) == SkipUnknown(lines[start..])
    {
      var candidate := Trim(lines[index]);
      if candidate != "" && FieldLine(candidate).Some? { break; }
      assert lines[index..][1..] == lines[index + 1..];
      index := index + 1;
    }
  }

  method SkipBlankScalarBlock(lines: seq<string>, start: nat) returns (r: Option<nat>)
    requires start <= |lines|
    ensures r.None? <==> SkipBlankScalar(lines[start..]).None?
    ensures r.Some? ==> start <= r.value <= |lines| && SkipBlankScalar(lines[start..]) == Some(lines[r.value..])
  {
    var index := start;
    while index < |lines|
      invariant start <= index <= |lines|
      invariant SkipBlankScalar(lines[index..]) == SkipBlankScalar(lines[start..])
    {
      var candidate := Trim(lines[index]);
      if candidate == "" {
        assert lines[index..][1..] == lines[index + 1..];
        index := index + 1;
        continue;
      }
      if FieldLine(candidate).Some? { break; }
      if ListItem(candidate).Some? { return None; }
      break;
    }
    return Some(index);
  }

  method ReadListBlock(lines: seq<string>, start: nat, first: seq<string>) returns (r: Option<(seq<string>, nat)>)
    requires start <= |lines|
    ensures r.None? <==> ListBlock(lines[start..], first).None?
    ensures r.Some? ==> start <= r.value.1 <= |lines|
                        && ListBlock(lines[start..], first) == Some((r.value.0, lines[r.value.1..]))
  {
    var index, items := start, first;
    while index < |lines|
      invariant start <= index <= |lines|
      invariant ListBlock(lines[index..], items) == ListBlock(lines[start..], first)
    {
      var next := Trim(lines[index]);
      assert lines[index..][1..] == lines[index + 1..];
      if next == "" {
        index := index + 1;
        if items != [] { return Some((items, index)); }
        continue;
      }
      if FieldLine(next).Some? { break; }
      var item := ListItem(next);
      if item.None? { return None; }
      items := items + [item.value];
      index := index + 1;
    }
    return Some((items, index));
  }

  /** The value of a known field that was not seen before, and the index behind its block. */
  method ReadFieldValue<F>(t: Table<F>, dialect: Dialect, f: F, inlined: string, lines: seq<string>, start: nat)
    returns (r: Result<(Option<Value>, nat), Error<F>>)
    requires start <= |lines|
    ensures r.Err? ==> FieldValue(t, dialect, f, inlined, lines[start..]) == Err(r.error)
    ensures r.Ok? ==> start <= r.value.1 <= |lines|
                      && FieldValue(t, dialect, f, inlined, lines[start..]) == Ok((r.value.0, lines[r.value.1..]))
  {
    if t.isList(f) {
      if dialect == WorkDialect && inlined != "" {
        return Ok((Some(List(Meaningful(t, f, [inlined]))), start));
      }
      var block := ReadListBlock(lines, start, if inlined == "" then [] else [inlined]);
      if block.None? { return Err(InvalidItem(f)); }
      return Ok((Some(List(Meaningful(t, f, block.value.0))), block.value.1));
    }
    if inlined != "" { return Ok((Some(Scalar(inlined)), start)); }
    if dialect == ReconDialect { return Err(EmptyScalar(f)); }
    var behind := SkipBlankScalarBlock(lines, start);
    if behind.None? { return Err(ItemUnderScalar(f)); }
    return Ok((None, behind.value));
  }

  /** One known field, from the line behind its label. */
  method ReadField<F(==)>(t: Table<F>, dialect: Dialect, f: F, inlined: string, lines: seq<string>, start: nat,
                          fields: Fields<F>)
    returns (r: Result<(Fields<F>, nat), Error<F>>)
    requires start <= |lines|
    ensures r.Ok? ==> start <= r.value.1 <= |lines|
    ensures r.Ok? ==> f !in fields && exists value ::
                        FieldValue(t, dialect, f, inlined, lines[start..]) == Ok((value, lines[r.value.1..]))
                        && r.value.0 == Put(fields, f, value)
    ensures r.Err? && f in fields ==> r.error == RepeatedField(f)
    ensures r.Err? && f !in fields ==> FieldValue(t, dialect, f, inlined, lines[start..]) == Err(r.error)
  {
    if f in fields { return Err(RepeatedField(f)); }
    var read :- ReadFieldValue(t, dialect, f, inlined, lines, start);
    return Ok((Put(fields, f, read.0), read.1));
  }

  /** One round of the loop, from the line at `start`: the fields then, and the next index. */
  method ReadLine<F(==)>(t: Table<F>, dialect: Dialect, lines: seq<string>, start: nat, fields: Fields<F>)
    returns (r: Result<(Fields<F>, nat), Error<F>>)
    requires start < |lines|
    ensures r.Ok? ==> start < r.value.1 <= |lines|
                      && Body(t, dialect, lines[start..], fields) == Body(t, dialect, lines[r.value.1..], r.value.0)
    ensures r.Err? ==> Body(t, dialect, lines[start..], fields) == Err(r.error)
  {
    var line := FieldLine(Trim(lines[start]));
    assert lines[start..][1..] == lines[start + 1..];
    if line.None? { return Ok((fields, start + 1)); }
    var (name, inlined) := line.value;
    var found := t.lookup(name);
    if found.None? {
      var index := SkipUnknownFieldBlock(lines, start + 1);
      return Ok((fields, index));
    }
    r := ReadField(t, dialect, found.value, inlined, lines, start + 1, fields);
  }

  /** The index-driven loop computes the parse. */
  method ParseMarkdownFields<F(==)>(t: Table<F>, dialect: Dialect, text: string)
    returns (r: Result<(string, Fields<F>), Error<F>>)
    ensures r == Parse(t, dialect, text)
  {
    var lines := Lines(text);
    var title :- Heading<F>(dialect, lines);
    var fields: Fields<F> := map[];
    var index := 1;
    while index < |lines|
      invariant 1 <= index <= |lines|
      invariant Body(t, dialect, lines[index..], fields) == Body(t, dialect, lines[1..], map[])
    {
      var read :- ReadLine(t, dialect, lines, index, fields);
      fields, index := read.0, read.1;
    }
    return Ok((title, fields));
  }

  lemma PushLines(lines: seq<string>, block: seq<string>, rest: seq<string>)
    ensures lines + (block + rest) == (lines + block) + rest
  {}

  lemma FirstField<F>(t: Table<F>, order: seq<F>, i: nat, doc: Fields<F>)
    requires i < |order|
    ensures BodyLines(t, order[i..], doc) == FieldLines(t, order[i], doc) + BodyLines(t, order[i + 1..], doc)
  {
    assert order[i..][1..] == order[i + 1..];
  }

  /** Rendering pushes the lines of one field after another. */
  method RenderDocument<F>(t: Table<F>, title: string, order: seq<F>, doc: Fields<F>) returns (text: string)
    ensures text == Render(t, title, order, doc)
  {
    ghost var all := ["# " + title, ""] + BodyLines(t, order, doc);
    var lines := ["# " + title, ""];
    for i := 0 to |order|
      invariant lines + BodyLines(t, order[i..], doc) == all
    {
      FirstField(t, order, i, doc);
      var block := FieldLines(t, order[i], doc);
      PushLines(lines, block, BodyLines(t, order[i + 1..], doc));
      lines := lines + block;
    }
    assert lines + [] == lines;
    text := JoinLines(lines) + "\n";
  }
}
