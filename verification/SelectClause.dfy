/** The select clause builder: columns are collected in one shared list, also
  * through per-table views of it, and rendered into one text from which the
  * list can be read back.
  */
module SelectClause {

  /** A selected column, plain or decrypted with a key. */
  datatype Column =
    | Plain(name: string, rename: string, table: string)
    | Pgp(name: string, rename: string, table: string, key: string)

  function Qualified(table: string, name: string): string {
    if table == "" then name else table + "." + name
  }

  function Renamed(rename: string): string {
    if rename == "" then "" else " as " + rename
  }

  const COALESCE := "COALESCE"
  const BRACKET := "(pgp_sym_decrypt("
  const DECRYPT := COALESCE + BRACKET

  /** A qualified decrypted column is looked up under its new name. */
  function Syntax(c: Column): string {
    match c
    case Plain(name, rename, table) => Qualified(table, name) + Renamed(rename)
    case Pgp(name, rename, table, key) =>
      DECRYPT + (if table == "" then name else Qualified(table, rename)) + (", '" + key + "'), '')") + Renamed(rename)
  }

  function Join(parts: seq<string>): string {
    if parts == [] then ""
    else if |parts| == 1 then parts[0]
    else parts[0] + (", " + Join(parts[1..]))
  }

  function Syntaxes(cs: seq<Column>): (parts: seq<string>)
    ensures |parts| == |cs|
  {
    seq(|cs|, i requires 0 <= i < |cs| => Syntax(cs[i]))
  }

  /** The text of a whole select clause. */
  function Render(cs: seq<Column>): string {
    Join(Syntaxes(cs))
  }

  // --- the builders

  class Builder {
    var columns: seq<Column>

    constructor ()
      ensures columns == []
    {
      columns := [];
    }

    method Column(name: string) returns (b: Builder)
      modifies this
      ensures b == this && columns == old(columns) + [Plain(name, "", "")]
    {
      columns := columns + [Plain(name, "", "")];
      b := this;
    }

    method ColumnRenamed(name: string, rename: string) returns (b: Builder)
      modifies this
      ensures b == this && columns == old(columns) + [Plain(name, rename, "")]
    {
      columns := columns + [Plain(name, rename, "")];
      b := this;
    }

    method ColumnPgpEnc(name: string, rename: string, key: string) returns (b: Builder)
      modifies this
      ensures b == this && columns == old(columns) + [Pgp(name, rename, "", key)]
    {
      columns := columns + [Pgp(name, rename, "", key)];
      b := this;
    }

    method ForTable(table: string) returns (b: TableBuilder)
      ensures fresh(b) && b.table == table && b.builder == this
    {
      b := new TableBuilder(table, this);
    }

    method Build() returns (text: string)
      ensures text == Render(columns)
    {
      hide Syntax, Join;
      var parts := new string[|columns|];
      for i := 0 to |columns|
        invariant forall j :: 0 <= j < i ==> parts[j] == Syntax(columns[j])
      {
        parts[i] := Syntax(columns[i]);
      }
      assert parts[..] == Syntaxes(columns);
      text := Join(parts[..]);
    }
  }

  /** A view of a builder that qualifies every column with its table. */
  class TableBuilder {
    const table: string
    const builder: Builder

    constructor (table: string, builder: Builder)
      ensures this.table == table && this.builder == builder
    {
      this.table, this.builder := table, builder;
    }

    method Column(name: string) returns (b: TableBuilder)
      modifies builder
      ensures b == this && builder.columns == old(builder.columns) + [Plain(name, "", table)]
    {
      builder.columns := builder.columns + [Plain(name, "", table)];
      b := this;
    }

    method ColumnRenamed(name: string, rename: string) returns (b: TableBuilder)
      modifies builder
      ensures b == this && builder.columns == old(builder.columns) + [Plain(name, rename, table)]
    {
      builder.columns := builder.columns + [Plain(name, rename, table)];
      b := this;
    }

    method ColumnPgpEnc(name: string, rename: string, key: string) returns (b: TableBuilder)
      modifies builder
      ensures b == this && builder.columns == old(builder.columns) + [Pgp(name, rename, table, key)]
    {
      builder.columns := builder.columns + [Pgp(name, rename, table, key)];
      b := this;
    }

    method ForTable(table: string) returns (b: TableBuilder)
      ensures fresh(b) && b.table == table && b.builder == builder
    {
      b := builder.ForTable(table);
    }

    method Build() returns (text: string)
      ensures text == Render(builder.columns)
    {
      text := builder.Build();
    }
  }

  // --- the text

  /** The text of a plain column, written out. */
  lemma PlainTells(name: string, rename: string, table: string)
    requires rename != "" && table != ""
    ensures Syntax(Plain(name, "", "")) == name
    ensures Syntax(Plain(name, "", table)) == table + "." + name
    ensures Syntax(Plain(name, rename, "")) == name + " as " + rename
    ensures Syntax(Plain(name, rename, table)) == table + "." + name + " as " + rename
  {
    assert name + "" == name && (table + "." + name) + "" == table + "." + name;
    Regroup(name, " as ", rename);
    Regroup(table + "." + name, " as ", rename);
  }

  /** The text of a decrypted column: `lookup` is its own name, or its new one behind its table. */
  lemma PgpTells(name: string, rename: string, table: string, key: string, lookup: string)
    requires lookup == if table == "" then name else table + "." + rename
    ensures rename == "" ==>
      Syntax(Pgp(name, rename, table, key)) == "COALESCE(pgp_sym_decrypt(" + lookup + ", '" + key + "'), '')"
    ensures rename != "" ==>
      Syntax(Pgp(name, rename, table, key))
        == "COALESCE(pgp_sym_decrypt(" + lookup + ", '" + key + "'), '')" + " as " + rename
  {
    var text := Syntax(Pgp(name, rename, table, key));
    assert text == ((DECRYPT + lookup) + ((", '" + key) + "'), '')")) + Renamed(rename);
    DecryptText();
    Regroup(DECRYPT + lookup, ", '" + key, "'), '')");
    Regroup(DECRYPT + lookup, ", '", key);
    var before := "COALESCE(pgp_sym_decrypt(" + lookup + ", '" + key + "'), '')";
    assert text == before + Renamed(rename);
    hide Syntax;
    Regroup(before, " as ", rename);
    assert before + "" == before;
  }

  lemma DecryptText()
    ensures DECRYPT == "COALESCE(pgp_sym_decrypt("
  { }

  /** The columns' texts stand in their order, with a comma and a blank between two of them. */
  lemma ClauseTells(c: Column, cs: seq<Column>)
    ensures Render([]) == "" && Render([c]) == Syntax(c)
    ensures cs != [] ==> Render([c] + cs) == Syntax(c) + ", " + Render(cs)
  {
    hide Syntax;
    RenderFirst([c]);
    RenderFirst([c] + cs);
    assert ([c] + cs)[1..] == cs;
    Regroup(Syntax(c), ", ", Render(cs));
  }

  // --- reading the text back

  predicate IsLetter(c: char) {
    'a' <= c <= 'z' || 'A' <= c <= 'Z' || '0' <= c <= '9' || c == '_'
  }

  predicate IsIdentifier(name: string) {
    name != "" && All(IsLetter, name)
  }

  predicate WellFormed(c: Column) {
    && IsIdentifier(c.name)
    && (c.rename == "" || IsIdentifier(c.rename))
    && (c.table == "" || IsIdentifier(c.table))
    && (c.Pgp? ==> All(NotQuote, c.key))
  }

  /** The text mentions the column itself. */
  predicate Faithful(c: Column) {
    c.Pgp? && c.table != "" ==> c.rename == c.name
  }

  /** `x` is where a run of characters in `p` must end. */
  predicate Stops(p: char -> bool, x: string) {
    x == "" || !p(x[0])
  }

  predicate All(p: char -> bool, a: string) {
    forall i :: 0 <= i < |a| ==> p(a[i])
  }

  /** A longest run of characters ends in one place only. */
  lemma Munch(p: char -> bool, a: string, x: string, b: string, y: string)
    requires All(p, a) && All(p, b) && Stops(p, x) && Stops(p, y) && a + x == b + y
    ensures a == b && x == y
  {
    assert (a + x)[..|a|] == a && (a + x)[|a|..] == x && (b + y)[..|b|] == b && (b + y)[|b|..] == y;
  }

  lemma Cancel(p: string, x: string, y: string)
    requires p + x == p + y
    ensures x == y
  {
    assert (p + x)[|p|..] == x && (p + y)[|p|..] == y;
  }

  lemma Regroup(a: string, b: string, c: string)
    ensures (a + b) + c == a + (b + c)
  { }

  /** A possibly qualified name with `x` after it: its first name, and the rest. */
  function FirstName(t: string, a: string): string {
    if t == "" then a else t
  }

  function AfterName(t: string, a: string, x: string): string {
    if t == "" then x else "." + (a + x)
  }

  lemma QualifiedParts(t: string, a: string, x: string)
    ensures Qualified(t, a) + x == FirstName(t, a) + AfterName(t, a, x)
  {
    if t != "" {
      Regroup(t + ".", a, x);
      Regroup(t, ".", a + x);
    }
  }

  /** `x` ends a possibly qualified name. */
  predicate StopsName(x: string) {
    Stops(IsLetter, x) && (x != "" ==> x[0] != '.')
  }

  lemma QualifiedUnique(t: string, a: string, x: string, u: string, b: string, y: string)
    requires IsIdentifier(a) && IsIdentifier(b) && (t == "" || IsIdentifier(t)) && (u == "" || IsIdentifier(u))
    requires StopsName(x) && StopsName(y) && Qualified(t, a) + x == Qualified(u, b) + y
    ensures t == u && a == b && x == y
  {
    hide Qualified;
    QualifiedParts(t, a, x);
    QualifiedParts(u, b, y);
    Munch(IsLetter, FirstName(t, a), AfterName(t, a, x), FirstName(u, b), AfterName(u, b, y));
    if t != "" && u != "" {
      Cancel(".", a + x, b + y);
      Munch(IsLetter, a, x, b, y);
    }
  }

  /** What may follow a column. */
  predicate Ends(x: string) {
    x == "" || x[0] == ','
  }

  lemma RenamedParts(r: string, x: string)
    ensures Renamed(r) + x == if r == "" then x else " as " + (r + x)
  {
    if r == "" {
      assert "" + x == x;
    } else {
      Regroup(" as ", r, x);
    }
  }

  lemma RenamedUnique(r: string, x: string, s: string, y: string)
    requires (r == "" || IsIdentifier(r)) && (s == "" || IsIdentifier(s)) && Ends(x) && Ends(y)
    requires Renamed(r) + x == Renamed(s) + y
    ensures r == s && x == y
  {
    hide Renamed;
    RenamedParts(r, x);
    RenamedParts(s, y);
    if r != "" && s != "" {
      Cancel(" as ", r + x, s + y);
      Munch(IsLetter, r, x, s, y);
    }
  }

  lemma RenameStops(r: string, x: string)
    requires Ends(x)
    ensures StopsName(Renamed(r) + x)
  {
    RenamedParts(r, x);
  }

  lemma PlainUnique(c: Column, x: string, d: Column, y: string)
    requires c.Plain? && d.Plain? && WellFormed(c) && WellFormed(d) && Ends(x) && Ends(y)
    requires Syntax(c) + x == Syntax(d) + y
    ensures c == d && x == y
  {
    hide Qualified, Renamed, IsIdentifier, StopsName;
    Regroup(Qualified(c.table, c.name), Renamed(c.rename), x);
    Regroup(Qualified(d.table, d.name), Renamed(d.rename), y);
    RenameStops(c.rename, x);
    RenameStops(d.rename, y);
    QualifiedUnique(c.table, c.name, Renamed(c.rename) + x, d.table, d.name, Renamed(d.rename) + y);
    RenamedUnique(c.rename, x, d.rename, y);
  }

  const QUOTE := ", '"
  const CLOSE := "'), '')"

  /** What follows the looked-up name of a decrypted column. */
  function AfterLookup(c: Column, x: string): string
    requires c.Pgp?
  {
    QUOTE + (c.key + (CLOSE + (Renamed(c.rename) + x)))
  }

  /** A decrypted column, cut into its parts. */
  lemma PgpParts(c: Column, x: string)
    requires c.Pgp? && Faithful(c)
    ensures Syntax(c) + x == DECRYPT + (Qualified(c.table, c.name) + AfterLookup(c, x))
  {
    hide Renamed;
    var q, k, r := Qualified(c.table, c.name), QUOTE + c.key + CLOSE, Renamed(c.rename);
    assert Syntax(c) == ((DECRYPT + q) + k) + r;
    Regroup((DECRYPT + q) + k, r, x);
    Regroup(DECRYPT + q, k, r + x);
    Regroup(DECRYPT, q, k + (r + x));
    Regroup(QUOTE + c.key, CLOSE, r + x);
    Regroup(QUOTE, c.key, CLOSE + (r + x));
  }

  predicate NotQuote(c: char) {
    c != '\''
  }

  lemma PgpUnique(c: Column, x: string, d: Column, y: string)
    requires c.Pgp? && d.Pgp? && WellFormed(c) && WellFormed(d) && Faithful(c) && Faithful(d) && Ends(x) && Ends(y)
    requires Syntax(c) + x == Syntax(d) + y
    ensures c == d && x == y
  {
    hide Qualified, Renamed, Syntax;
    PgpParts(c, x);
    PgpParts(d, y);
    var x1, y1 := Renamed(c.rename) + x, Renamed(d.rename) + y;
    Cancel(DECRYPT, Qualified(c.table, c.name) + AfterLookup(c, x), Qualified(d.table, d.name) + AfterLookup(d, y));
    QualifiedUnique(c.table, c.name, AfterLookup(c, x), d.table, d.name, AfterLookup(d, y));
    Cancel(QUOTE, c.key + (CLOSE + x1), d.key + (CLOSE + y1));
    Munch(NotQuote, c.key, CLOSE + x1, d.key, CLOSE + y1);
    Cancel(CLOSE, x1, y1);
    RenamedUnique(c.rename, x, d.rename, y);
  }

  lemma PlainStart(c: Column, x: string)
    requires c.Plain? && WellFormed(c) && Ends(x)
    ensures var after := AfterName(c.table, c.name, Renamed(c.rename) + x);
      Syntax(c) + x == FirstName(c.table, c.name) + after && Stops(IsLetter, after) && (after != "" ==> after[0] != '(')
  {
    hide Renamed, Qualified, IsIdentifier;
    var r := Renamed(c.rename) + x;
    Regroup(Qualified(c.table, c.name), Renamed(c.rename), x);
    QualifiedParts(c.table, c.name, r);
    RenamedParts(c.rename, x);
  }

  lemma PgpStart(d: Column, y: string)
    requires d.Pgp? && Faithful(d)
    ensures Syntax(d) + y == COALESCE + (BRACKET + (Qualified(d.table, d.name) + AfterLookup(d, y)))
  {
    PgpParts(d, y);
    hide Syntax, Qualified, AfterLookup;
    Regroup(COALESCE, BRACKET, Qualified(d.table, d.name) + AfterLookup(d, y));
  }

  /** A plain column's first name is never followed by a bracket. */
  lemma PlainIsNotPgp(c: Column, x: string, d: Column, y: string)
    requires c.Plain? && d.Pgp? && WellFormed(c) && Faithful(d) && Ends(x)
    ensures Syntax(c) + x != Syntax(d) + y
  {
    PlainStart(c, x);
    PgpStart(d, y);
    hide Syntax, Qualified, Renamed, AfterLookup, AfterName;
    Coalesce(Qualified(d.table, d.name) + AfterLookup(d, y));
    DifferentStops(FirstName(c.table, c.name), AfterName(c.table, c.name, Renamed(c.rename) + x),
      COALESCE, BRACKET + (Qualified(d.table, d.name) + AfterLookup(d, y)));
  }

  lemma Coalesce(x: string)
    ensures All(IsLetter, COALESCE) && BRACKET + x != "" && (BRACKET + x)[0] == '('
  { }

  lemma DifferentStops(a: string, x: string, b: string, y: string)
    requires All(IsLetter, a) && All(IsLetter, b) && Stops(IsLetter, x)
    requires y != "" && y[0] == '(' && (x != "" ==> x[0] != '(')
    ensures a + x != b + y
  {
    if a + x == b + y {
      Munch(IsLetter, a, x, b, y);
    }
  }

  lemma ColumnUnique(c: Column, x: string, d: Column, y: string)
    requires WellFormed(c) && WellFormed(d) && Faithful(c) && Faithful(d) && Ends(x) && Ends(y)
    requires Syntax(c) + x == Syntax(d) + y
    ensures c == d && x == y
  {
    hide WellFormed, Faithful, Syntax, Ends;
    if c.Plain? && d.Plain? {
      PlainUnique(c, x, d, y);
    } else if c.Pgp? && d.Pgp? {
      PgpUnique(c, x, d, y);
    } else if c.Plain? {
      PlainIsNotPgp(c, x, d, y);
    } else {
      PlainIsNotPgp(d, y, c, x);
    }
  }

  ghost predicate AllReadable(cs: seq<Column>) {
    forall i :: 0 <= i < |cs| ==> WellFormed(cs[i]) && Faithful(cs[i])
  }

  /** What follows the first column of a list. */
  function AfterFirst(cs: seq<Column>): string
    requires cs != []
  {
    if |cs| == 1 then "" else ", " + Render(cs[1..])
  }

  lemma RenderFirst(cs: seq<Column>)
    requires cs != []
    ensures Render(cs) == Syntax(cs[0]) + AfterFirst(cs) && Ends(AfterFirst(cs))
  {
    hide Syntax;
    assert Syntaxes(cs)[1..] == Syntaxes(cs[1..]);
    assert Syntax(cs[0]) + "" == Syntax(cs[0]);
  }

  lemma SomeText(c: Column, x: string)
    requires WellFormed(c)
    ensures Syntax(c) + x != ""
  { }

  /** The select clause is unambiguous: equal texts come from equal column lists, in
    * the order of the calls and with each column's own table, name and key.
    */
  lemma {:induction false} RenderUnique(cs: seq<Column>, ds: seq<Column>)
    requires AllReadable(cs) && AllReadable(ds) && Render(cs) == Render(ds)
    ensures cs == ds
    decreases |cs|
  {
    hide Syntax, WellFormed, Faithful, Render, AfterFirst, Ends;
    EmptyTogether(cs);
    EmptyTogether(ds);
    if cs != [] && ds != [] {
      RenderFirst(cs);
      RenderFirst(ds);
      ColumnUnique(cs[0], AfterFirst(cs), ds[0], AfterFirst(ds));
      TailText(cs, ds);
      RenderUnique(cs[1..], ds[1..]);
      assert cs == [cs[0]] + cs[1..] && ds == [ds[0]] + ds[1..];
    }
  }

  /** Only the empty list has an empty text. */
  lemma EmptyTogether(cs: seq<Column>)
    requires AllReadable(cs)
    ensures Render(cs) == "" <==> cs == []
  {
    if cs != [] {
      RenderFirst(cs);
      SomeText(cs[0], AfterFirst(cs));
    }
    hide Syntax, AfterFirst;
  }

  lemma TailText(cs: seq<Column>, ds: seq<Column>)
    requires cs != [] && ds != [] && AfterFirst(cs) == AfterFirst(ds)
    ensures Render(cs[1..]) == Render(ds[1..])
  {
    hide Render;
    if |cs| > 1 {
      Cancel(", ", Render(cs[1..]), Render(ds[1..]));
    } else {
      assert cs[1..] == ds[1..] == [];
    }
  }

  /** A qualified decrypted column is read back exactly when its new name is its own:
    * otherwise its text is that of another column.
    */
  lemma PgpNeedsOwnName(c: Column)
    requires c.Pgp? && WellFormed(c) && c.rename != ""
    ensures (forall d :: WellFormed(d) && Faithful(d) && Syntax(d) == Syntax(c) ==> d == c) <==> Faithful(c)
  {
    if Faithful(c) {
      forall d | WellFormed(d) && Faithful(d) && Syntax(d) == Syntax(c) ensures d == c {
        assert Syntax(d) + "" == Syntax(d) && Syntax(c) + "" == Syntax(c);
        ColumnUnique(d, "", c, "");
      }
    } else {
      var d := c.(name := c.rename);
      assert WellFormed(d) && Faithful(d) && Syntax(d) == Syntax(c) && d != c;
    }
  }
}
