/**
  The deterministic parts of the FastAPI backend (backend.py): pulling the
  SQL query out of a model reply, turning `PRAGMA table_info` rows into
  column descriptors, and rendering those descriptors as the schema text
  that goes into a prompt.
 */
module Backend {
  import opened Wrappers
  import opened PyStr

  // ---------------------------------------------------------------------
  // Extracting the query from a reply: re.search(r"```sql\n(.*?)\n```",
  // text, re.DOTALL), then strip() of the group, or of the whole text.
  // ---------------------------------------------------------------------

  /** The literal text before the capture group. */
  const Opener: string := "```sql\n"
  /** The literal text after the capture group. */
  const Closer: string := "\n```"

  /**
    The pattern matches `s` starting at `p` with a capture group of `k`
    characters. Under DOTALL `.` is any character, so the capture is
    unconstrained.
   */
  predicate FenceAt(s: string, p: int, k: int) {
    0 <= k && OccursAt(s, Opener, p) && OccursAt(s, Closer, p + |Opener| + k)
  }

  /**
    The match `re.search` reports: the leftmost start at which the pattern
    matches at all, and at that start the shortest capture, since `.*?`
    is lazy.
   */
  ghost predicate IsSearchMatch(s: string, p: int, k: int) {
    && FenceAt(s, p, k)
    && (forall p', k' :: FenceAt(s, p', k') ==> p <= p')
    && (forall k' :: FenceAt(s, p, k') ==> k <= k')
  }

  /** The fence search: the start of the match and the length of its capture, if any. */
  function SearchFence(s: string): (m: Option<(nat, nat)>)
    ensures m.Some? ==> IsSearchMatch(s, m.value.0, m.value.1)
    ensures m.None? ==> forall p, k :: !FenceAt(s, p, k)
  {
    match Find(s, Opener, 0)
    case None => None
    case Some(p) =>
      match Find(s, Closer, p + |Opener|)
      case None => None
      case Some(q) => Some((p, q - p - |Opener|))
  }

  /** The text that gets stripped: the capture group of the match, or the whole reply when nothing matches. */
  function Capture(text: string): (c: string)
  {
    match SearchFence(text)
    case None => text
    case Some((p, k)) => text[p + |Opener|..p + |Opener| + k]
  }

  /** The query text the `/re_generate/` endpoint answers with for the model's reply `text`. */
  function ExtractSqlQuery(text: string): (r: string)
    ensures IsStripped(r)
  {
    Strip(Capture(text))
  }

  /** The leftmost, shortest match is the only one the search can report. */
  lemma SearchMatchUnique(text: string, p: nat, k: nat)
    requires IsSearchMatch(text, p, k)
    ensures SearchFence(text) == Some((p, k))
  {
    var m := SearchFence(text);
    assert m.Some? by {
      assert FenceAt(text, p, k);
    }
    var p', k' := m.value.0, m.value.1;
    assert IsSearchMatch(text, p', k');
    assert FenceAt(text, p, k) && FenceAt(text, p', k');
  }

  /** A fenced reply yields the stripped capture of the leftmost, shortest match. */
  lemma FencedReply(text: string, p: nat, k: nat)
    requires IsSearchMatch(text, p, k)
    ensures ExtractSqlQuery(text) == Strip(text[p + |Opener|..p + |Opener| + k])
  {
    SearchMatchUnique(text, p, k);
    assert Capture(text) == text[p + |Opener|..p + |Opener| + k];
  }

  /** Without any fenced block the whole reply is stripped. */
  lemma UnfencedReply(text: string)
    requires forall p, k :: !FenceAt(text, p, k)
    ensures ExtractSqlQuery(text) == Strip(text)
  {
  }

  /** A reply in which "```sql" is never directly followed by a newline is stripped as a whole. */
  lemma NoOpenerReply(text: string)
    requires !Contains(text, Opener)
    ensures ExtractSqlQuery(text) == Strip(text)
  {
    UnfencedReply(text);
  }

  /** A closer inside the capture of a match at `p` would close a shorter match at `p`. */
  lemma CloserInCapture(text: string, p: nat, k: nat)
    requires OccursAt(text, Opener, p) && p + |Opener| + k <= |text|
    ensures Contains(text[p + |Opener|..p + |Opener| + k], Closer) ==> exists i :: 0 <= i < k && FenceAt(text, p, i)
  {
    var lo, hi := p + |Opener|, p + |Opener| + k;
    if Contains(text[lo..hi], Closer) {
      var i :| OccursAt(text[lo..hi], Closer, i);
      forall j | 0 <= j < |Closer| ensures text[lo + i + j] == Closer[j] {
        assert text[lo..hi][i..i + |Closer|][j] == Closer[j];
        assert text[lo..hi][i + j] == text[lo + i + j];
      }
      assert text[lo + i..lo + i + |Closer|] == Closer;
      assert FenceAt(text, p, i);
    }
  }

  /** The lazy capture stops at the nearest closer, so the extracted query never holds one. */
  lemma FencedQueryHasNoCloser(text: string, p: nat, k: nat)
    requires IsSearchMatch(text, p, k)
    ensures !Contains(ExtractSqlQuery(text), Closer)
  {
    FencedReply(text, p, k);
    StripContains(text[p + |Opener|..p + |Opener| + k], Closer);
    CloserInCapture(text, p, k);
  }

  /**
    Round trip: a query with no surrounding whitespace, wrapped in a fence,
    is extracted unchanged, provided no closer starts inside it (the query
    may span lines).
   */
  lemma FenceRoundTrip(q: string)
    requires IsStripped(q) && !Contains(q + "\n``", Closer)
    ensures ExtractSqlQuery(Opener + q + Closer) == q
  {
    var text := Opener + q + Closer;
    var n := |Opener|;
    assert text[0..n] == Opener;
    assert text[n + |q|..n + |q| + |Closer|] == Closer;
    assert FenceAt(text, 0, |q|);
    assert text[n..n + |q| + 3] == q + "\n``";
    forall k | FenceAt(text, 0, k) ensures |q| <= k {
      OccurrenceInPiece(text, n, n + |q| + 3, Closer, n + k);
    }
    FencedReply(text, 0, |q|);
    assert text[n..n + |q|] == q;
    assert q[0..|q|] == q;
    StripUnique(q, 0, q);
  }

  /** A typical model reply, "```sql\nSELECT * FROM customers LIMIT 5\n```", yields the bare query. */
  lemma ExampleFencedReply()
    ensures ExtractSqlQuery(Opener + "SELECT * FROM customers LIMIT 5" + Closer) == "SELECT * FROM customers LIMIT 5"
  {
    var q := "SELECT * FROM customers LIMIT 5";
    var w := q + "\n``";
    forall i ensures !OccursAt(w, Closer, i) {
      OccurrenceChar(w, Closer, i, 0);
      assert '\n' !in q;
      assert 0 <= i < |q| ==> w[i] == q[i];
    }
    FenceRoundTrip(q);
  }

  /** The tag is case-sensitive: "```SQL" opens no fence. */
  lemma ExampleUpperCaseTag()
    ensures ExtractSqlQuery("```SQL\nSELECT 1\n```") == Strip("```SQL\nSELECT 1\n```")
  {
    var text := "```SQL\nSELECT 1\n```";
    forall i ensures !OccursAt(text, Opener, i) {
      OccurrenceChar(text, Opener, i, 3);
      assert 's' !in text;
    }
    NoOpenerReply(text);
  }

  /** The newline after the tag is required: "```sql SELECT ..." opens no fence. */
  lemma ExampleTagWithoutNewline()
    ensures ExtractSqlQuery("```sql SELECT 1\n```") == Strip("```sql SELECT 1\n```")
  {
    var text := "```sql SELECT 1\n```";
    forall i ensures !OccursAt(text, Opener, i) {
      OccurrenceChar(text, Opener, i, 0);
      OccurrenceChar(text, Opener, i, 6);
    }
    NoOpenerReply(text);
  }

  // ---------------------------------------------------------------------
  // The schema: one descriptor per PRAGMA table_info row.
  // ---------------------------------------------------------------------

  /** One row of `PRAGMA table_info`: (cid, name, type, notnull, dflt_value, pk). */
  datatype ColumnInfo = ColumnInfo(
    cid: int,
    name: string,
    declType: string,
    notNull: int,
    defaultValue: Option<string>,  // SQL NULL is Python None
    pk: int)

  /** The descriptor the `/extract-schema/` endpoint reports for one column. */
  datatype ColumnDescriptor = ColumnDescriptor(
    columnName: string,    // "Column Name"
    columnType: string,    // "Type"
    notNull: string,       // "Not Null"
    defaultValue: string,  // "Default Value"
    primaryKey: string)    // "Primary Key"

  /** Python truthiness of a default value: `None` and `""` are false. */
  predicate Truthy(v: Option<string>) {
    v.Some? && v.value != ""
  }

  function YesNo(b: bool): string {
    if b then "Yes" else "No"
  }

  /** The flags and the default a descriptor can carry. */
  predicate WellFormed(d: ColumnDescriptor) {
    && (d.notNull == "Yes" || d.notNull == "No")
    && (d.primaryKey == "Yes" || d.primaryKey == "No")
    && d.defaultValue != ""
  }

  /** The descriptor built for one row. */
  function Describe(c: ColumnInfo): (d: ColumnDescriptor)
    ensures WellFormed(d)
    ensures d.columnName == c.name && d.columnType == c.declType
    ensures d.notNull == "Yes" <==> c.notNull != 0
    ensures d.primaryKey == "Yes" <==> c.pk != 0
    ensures Truthy(c.defaultValue) ==> d.defaultValue == c.defaultValue.value
    ensures !Truthy(c.defaultValue) ==> d.defaultValue == "NULL"
  {
    ColumnDescriptor(
      c.name,
      c.declType,
      YesNo(c.notNull != 0),
      if Truthy(c.defaultValue) then c.defaultValue.value else "NULL",
      YesNo(c.pk != 0))
  }

  /** The schema: the descriptors of the rows, one each, in row order. */
  function DescribeColumns(rows: seq<ColumnInfo>): (schema: seq<ColumnDescriptor>)
    ensures |schema| == |rows|
    ensures forall i :: 0 <= i < |rows| ==> schema[i] == Describe(rows[i])
    ensures forall i :: 0 <= i < |schema| ==> WellFormed(schema[i]) && schema[i].columnName == rows[i].name
  {
    if rows == [] then [] else [Describe(rows[0])] + DescribeColumns(rows[1..])
  }

  // ---------------------------------------------------------------------
  // The schema text: "\n".join(f"{name} {type}" for each column).
  // ---------------------------------------------------------------------

  function Line(d: ColumnDescriptor): string {
    d.columnName + " " + d.columnType
  }

  function Lines(schema: seq<ColumnDescriptor>): (lines: seq<string>)
    ensures |lines| == |schema|
    ensures forall i :: 0 <= i < |schema| ==> lines[i] == Line(schema[i])
  {
    seq(|schema|, i requires 0 <= i < |schema| => Line(schema[i]))
  }

  /** The schema text both query endpoints put into their prompts. */
  function SchemaText(schema: seq<ColumnDescriptor>): (text: string)
    ensures schema == [] <==> text == []
    ensures |schema| == 1 ==> text == schema[0].columnName + " " + schema[0].columnType
  {
    JoinNonEmpty(Lines(schema));
    Join(Lines(schema), '\n')
  }

  /** Joining at least one piece that is itself non-empty gives a non-empty text. */
  lemma {:induction false} JoinNonEmpty(lines: seq<string>)
    requires forall i :: 0 <= i < |lines| ==> lines[i] != []
    ensures lines != [] ==> Join(lines, '\n') != []
  {
    if |lines| > 1 {
      assert |Join(lines, '\n')| >= |lines[0]|;
    }
  }

  /** The schema text read back line by line gives its lines, when no name or type spans lines. */
  lemma SchemaTextSplits(schema: seq<ColumnDescriptor>)
    requires schema != []
    requires forall i :: 0 <= i < |schema| ==> '\n' !in schema[i].columnName && '\n' !in schema[i].columnType
    ensures Split(SchemaText(schema), '\n') == Lines(schema)
  {
    var lines := Lines(schema);
    forall k | 0 <= k < |lines| ensures '\n' !in lines[k] {
      assert lines[k] == schema[k].columnName + " " + schema[k].columnType;
    }
    SplitJoin(lines, '\n');
  }

  /**
    The prompt's schema text holds one "name type" line per PRAGMA row, in
    row order, as long as no column name or type spans lines.
   */
  lemma SchemaTextLines(rows: seq<ColumnInfo>)
    requires rows != []
    requires forall i :: 0 <= i < |rows| ==> '\n' !in rows[i].name && '\n' !in rows[i].declType
    ensures |Split(SchemaText(DescribeColumns(rows)), '\n')| == |rows|
    ensures forall i :: 0 <= i < |rows| ==>
              Split(SchemaText(DescribeColumns(rows)), '\n')[i] == rows[i].name + " " + rows[i].declType
  {
    SchemaTextSplits(DescribeColumns(rows));
  }
}
