/** The index from column names to positions of a report header, with prefix stripping and aliases. */
module ColumnIndex {
  import opened Types

  type Columns = map<string, nat>

  const ALIASES: map<string, string> := map[
    "versionDetails.version" := "version",
    "region" := "regionLocation",
    "cloudAccount.externalId" := "cloudPlatform",
    "name" := "Name"]

  predicate HasDot(name: string) {
    '.' in name
  }

  /** The text after the last dot, or all of it when there is none. */
  function Unprefixed(name: string): (r: string)
    ensures '.' !in r && |r| <= |name| && name[|name| - |r|..] == r
    ensures HasDot(name) ==> |r| < |name| && name[|name| - |r| - 1] == '.'
    ensures !HasDot(name) ==> r == name
  {
    if name == "" then ""
    else if HasDot(name[1..]) then Unprefixed(name[1..])
    else if name[0] == '.' then name[1..]
    else name
  }

  /** The last column literally called `name`. */
  function LastLiteral(header: seq<string>, name: string): (r: Option<nat>)
    ensures r.Some? ==> r.value < |header| && header[r.value] == name
    ensures r.Some? ==> forall j :: r.value < j < |header| ==> header[j] != name
    ensures r.None? ==> name !in header
  {
    if header == [] then None
    else if header[|header| - 1] == name then Some(|header| - 1)
    else LastLiteral(header[..|header| - 1], name)
  }

  /** The first column that has a dot and `name` after its last one. */
  function FirstPrefixed(header: seq<string>, name: string): (r: Option<nat>)
    ensures r.Some? ==> r.value < |header| && HasDot(header[r.value]) && Unprefixed(header[r.value]) == name
    ensures r.Some? ==> forall j :: 0 <= j < r.value ==> !(HasDot(header[j]) && Unprefixed(header[j]) == name)
    ensures r.None? ==> forall j :: 0 <= j < |header| ==> !(HasDot(header[j]) && Unprefixed(header[j]) == name)
  {
    if header == [] then None
    else
      var n := |header| - 1;
      var r := FirstPrefixed(header[..n], name);
      if r.None? && HasDot(header[n]) && Unprefixed(header[n]) == name then Some(n) else r
  }

  /** Where a name is found: a literal column takes precedence over a prefixed one. */
  function Position(header: seq<string>, name: string): Option<nat> {
    if LastLiteral(header, name).Some? then LastLiteral(header, name) else FirstPrefixed(header, name)
  }

  /** The index holds every name of the header at its position, and no other name. */
  ghost predicate Indexes(cols: Columns, header: seq<string>) {
    forall name :: if Position(header, name).Some? then name in cols && cols[name] == Position(header, name).value
                   else name !in cols
  }

  method BuildColumnIndex(header: seq<string>) returns (cols: Columns)
    ensures Indexes(cols, header)
  {
    cols := map[];
    for i := 0 to |header|
      invariant Indexes(cols, header[..i])
    {
      ghost var before := cols;
      var name := header[i];
      cols := cols[name := i];
      if HasDot(name) {
        var unprefixed := Unprefixed(name);
        if unprefixed !in cols {
          cols := cols[unprefixed := i];
        }
      }
      IndexStep(before, header[..i], name);
      assert header[..i + 1] == header[..i] + [name];
    }
    assert header[..|header|] == header;
  }

  function AddColumn(cols: Columns, i: nat, name: string): Columns {
    var literal := cols[name := i];
    if HasDot(name) && Unprefixed(name) !in literal then literal[Unprefixed(name) := i] else literal
  }

  lemma IndexStep(cols: Columns, header: seq<string>, name: string)
    requires Indexes(cols, header)
    ensures Indexes(AddColumn(cols, |header|, name), header + [name])
  {
    var longer := header + [name];
    assert longer[..|header|] == header;
    forall x
      ensures if Position(longer, x).Some?
              then && x in AddColumn(cols, |header|, name)
                   && AddColumn(cols, |header|, name)[x] == Position(longer, x).value
              else x !in AddColumn(cols, |header|, name)
    {
      assert if Position(header, x).Some? then x in cols && cols[x] == Position(header, x).value else x !in cols;
    }
  }

  // ---------------------------------------------------------------------------------------------
  // Reading rows

  function Resolve(cols: Columns, name: string): Option<nat> {
    if name in cols then Some(cols[name])
    else if name in ALIASES && ALIASES[name] in cols then Some(cols[ALIASES[name]])
    else None
  }

  predicate HasColumn(cols: Columns, name: string) {
    || name in cols
    || (name in ALIASES && ALIASES[name] in cols)
  }

  function Col(cols: Columns, row: seq<string>, name: string): string {
    var i := Resolve(cols, name);
    if i.None? || i.value >= |row| then "" else row[i.value]
  }

  function Require(cols: Columns, row: seq<string>, name: string): Result<string> {
    var v := Col(cols, row, name);
    if v != "" then Ok(v)
    else if !HasColumn(cols, name) then Err("column not found in CSV header")
    else Err("missing value for column")
  }

  /** Every required column is present in the header, under its name or an alias. */
  predicate ValidColumns(header: seq<string>, required: seq<string>) {
    forall name :: name in required ==>
                     || Position(header, name).Some?
                     || (name in ALIASES && Position(header, ALIASES[name]).Some?)
  }

  /** Some column is called `name`, literally or after its last dot. */
  predicate Names(header: seq<string>, name: string) {
    exists i :: 0 <= i < |header| && (header[i] == name || (HasDot(header[i]) && Unprefixed(header[i]) == name))
  }

  /** The column is there, or the one that stands in for it. */
  predicate Present(header: seq<string>, name: string) {
    || Names(header, name)
    || (name == "versionDetails.version" && Names(header, "version"))
    || (name == "region" && Names(header, "regionLocation"))
    || (name == "cloudAccount.externalId" && Names(header, "cloudPlatform"))
    || (name == "name" && Names(header, "Name"))
  }

  lemma PositionMeansNamed(header: seq<string>, name: string)
    ensures Position(header, name).Some? <==> Names(header, name)
  {
    var last, first := LastLiteral(header, name), FirstPrefixed(header, name);
    if last.Some? {
      assert header[last.value] == name;
    } else if first.Some? {
      assert HasDot(header[first.value]) && Unprefixed(header[first.value]) == name;
    }
  }

  lemma ValidMeansPresent(header: seq<string>, required: seq<string>)
    ensures ValidColumns(header, required) <==> forall name :: name in required ==> Present(header, name)
  {
    forall name | name in required
      ensures Present(header, name) <==> || Position(header, name).Some?
                                         || (name in ALIASES && Position(header, ALIASES[name]).Some?)
    {
      PositionMeansNamed(header, name);
      if name in ALIASES {
        PositionMeansNamed(header, ALIASES[name]);
      }
    }
  }

  method ValidateRequiredColumns(rows: seq<seq<string>>, required: seq<string>) returns (ok: bool)
    requires |rows| > 0
    ensures ok <==> ValidColumns(rows[0], required)
    ensures ok <==> forall name :: name in required ==> Present(rows[0], name)
  {
    ValidMeansPresent(rows[0], required);
    var cols := BuildColumnIndex(rows[0]);
    for i := 0 to |required|
      invariant ValidColumns(rows[0], required[..i])
    {
      if !HasColumn(cols, required[i]) {
        assert required[i] in required;
        return false;
      }
      assert required[..i + 1] == required[..i] + [required[i]];
    }
    assert required[..|required|] == required;
    return true;
  }

  /** After validation, requiring a required column gives the cell under the name's own column, or under
      its alias if it has none; it fails only for an empty or missing cell, and the failure never blames
      the header. */
  lemma RequiredColumnsResolve(cols: Columns, header: seq<string>, required: seq<string>, row: seq<string>,
                               name: string)
    requires Indexes(cols, header) && ValidColumns(header, required) && name in required
    ensures var at := if Position(header, name).Some? then Position(header, name)
                      else if name in ALIASES then Position(header, ALIASES[name])
                      else None;
            && at.Some? && at.value < |header|
            && Require(cols, row, name) == if at.value < |row| && row[at.value] != "" then Ok(row[at.value])
                                           else Err("missing value for column")
  {
    assert Position(header, name).Some? ==> name in cols;
    if name in ALIASES {
      assert Position(header, ALIASES[name]).Some? ==> ALIASES[name] in cols;
      assert ALIASES[name] in cols ==> Position(header, ALIASES[name]).Some?;
    }
    assert name in cols ==> Position(header, name).Some?;
  }
}
