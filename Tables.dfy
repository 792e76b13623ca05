/** The tabular data the evaluation package works on: a population or sample
    data frame made of named, typed columns, and the errors its operations raise. */
module Tables {
  import opened Wrappers

  /** One cell of a data frame; `Missing` is pandas' NaN / None. */
  datatype Value =
    | Missing
    | Number(x: real)
    | Text(s: string)
    | Timestamp(ticks: int)
    | Flag(b: bool)

  /** The dtype group a column falls in for `select_dtypes`: `object` columns are
      categorical, `datetimetz` columns are time-zone aware timestamps, `number`
      columns are numeric; everything else (booleans, naive datetimes, the
      `category` dtype, ...) is `Other` and selected by none of the three. */
  datatype Dtype = Categorical | DatetimeTz | Numeric | Other

  datatype Column = Column(name: string, kind: Dtype, values: seq<Value>)

  /** A data frame: its row count (`df.shape[0]`) and its columns in order. */
  datatype Frame = Frame(height: nat, columns: seq<Column>)

  /** The Python exceptions raised on the paths the model covers. */
  datatype Error =
    | NotImplementedError(message: string)
    | KeyError(key: string)
    | AttributeError(attribute: string)
    | ValueError(message: string)
    | Raised(message: string)  // whatever a sampling strategy raises

  /** The columns of `cols` whose dtype group is `kind`, in order
      (`df.select_dtypes(include=[kind]).columns`). */
  function OfKind(cols: seq<Column>, kind: Dtype): (r: seq<Column>)
    ensures forall c :: c in r <==> c in cols && c.kind == kind
    ensures |r| <= |cols|
  {
    if cols == [] then []
    else (if cols[0].kind == kind then [cols[0]] else []) + OfKind(cols[1..], kind)
  }

  /** The set of names of `cols`. */
  function NameSet(cols: seq<Column>): (r: set<string>)
    ensures forall k :: k in r <==> exists i :: 0 <= i < |cols| && cols[i].name == k
  {
    set i | 0 <= i < |cols| :: cols[i].name
  }

  /** `frame.select_dtypes(include=[kind])[name]` for a name that labels at most
      one column of that dtype group: that column, or None when the selection
      has no such column. Where several columns of the group share the name,
      pandas selects all of them as a frame; the model takes the first. */
  function Lookup(f: Frame, kind: Dtype, name: string): (r: Option<Column>)
    ensures r.Some? ==> r.value in f.columns && r.value.kind == kind && r.value.name == name
    ensures r.None? ==> forall c :: c in f.columns && c.kind == kind ==> c.name != name
  {
    FirstNamed(OfKind(f.columns, kind), name)
  }

  function FirstNamed(cols: seq<Column>, name: string): (r: Option<Column>)
    ensures r.Some? ==> r.value in cols && r.value.name == name
    ensures r.None? ==> forall c :: c in cols ==> c.name != name
  {
    if cols == [] then None
    else if cols[0].name == name then Some(cols[0])
    else FirstNamed(cols[1..], name)
  }
}
