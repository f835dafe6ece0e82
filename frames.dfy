/** The slice of a pysat `Instrument` that the methods read and write: a time index and
    named data columns of equal length, `None` standing for NaN. A vector quantity is kept
    as three columns, one per ECEF component. */
module Frames {
  import opened Wrappers
  import opened Vectors

  /** One data column: a value per sample. */
  type Column = seq<Option<real>>

  /** The labels of the three component columns of one vector quantity. */
  datatype Labels = Labels(x: string, y: string, z: string)

  /** The components of one sample of a vector quantity; each may be NaN on its own. */
  datatype Triple = Triple(x: Option<real>, y: Option<real>, z: Option<real>)

  /** Every column holds one value per entry of the index. */
  predicate Aligned(data: map<string, Column>, n: nat) {
    forall k :: k in data ==> |data[k]| == n
  }

  predicate HasColumns(data: map<string, Column>, l: Labels) {
    l.x in data && l.y in data && l.z in data
  }

  /** The three labels are different columns. */
  predicate Distinct(l: Labels) {
    l.x != l.y && l.y != l.z && l.x != l.z
  }

  /** The three labels as a set of column names. */
  function Names(l: Labels): set<string> {
    {l.x, l.y, l.z}
  }

  predicate Labelled(k: string, l: Labels) {
    k == l.x || k == l.y || k == l.z
  }

  /** No label of `m` is a label of `l`. */
  predicate Apart(l: Labels, m: Labels) {
    !Labelled(m.x, l) && !Labelled(m.y, l) && !Labelled(m.z, l)
  }

  /** The whole vector when no component is NaN. Any arithmetic that combines all three
      components (a norm, a dot or cross product) is NaN exactly when this is `None`. */
  function AsVector(t: Triple): (v: Option<Vec3>)
    ensures v.Some? <==> t.x.Some? && t.y.Some? && t.z.Some?
    ensures v.Some? ==> t == Triple(Some(v.value.x), Some(v.value.y), Some(v.value.z))
  {
    if t.x.Some? && t.y.Some? && t.z.Some? then Some(Vec3(t.x.value, t.y.value, t.z.value))
    else None
  }

  /** The components of a vector that is either whole or entirely NaN. */
  function FromVector(v: Option<Vec3>): (t: Triple)
    ensures AsVector(t) == v
    ensures v.None? ==> t == Triple(None, None, None)
  {
    match v
    case None => Triple(None, None, None)
    case Some(a) => Triple(Some(a.x), Some(a.y), Some(a.z))
  }

  /** Sample `i` of the vector kept under `l`. */
  function Sample(data: map<string, Column>, l: Labels, i: nat): Triple
    requires HasColumns(data, l)
    requires i < |data[l.x]| && i < |data[l.y]| && i < |data[l.z]|
  {
    Triple(data[l.x][i], data[l.y][i], data[l.z][i])
  }

  function Vector(data: map<string, Column>, l: Labels, i: nat): Option<Vec3>
    requires HasColumns(data, l)
    requires i < |data[l.x]| && i < |data[l.y]| && i < |data[l.z]|
  {
    AsVector(Sample(data, l, i))
  }

  /** Assigns a column of samples to the three labels, one component column at a time,
      as three `inst[label] = values` statements do. */
  function Store(data: map<string, Column>, l: Labels, col: seq<Triple>): (d: map<string, Column>)
    ensures d.Keys == data.Keys + Names(l)
    ensures forall k :: k in data && !Labelled(k, l) ==> d[k] == data[k]
  {
    data[l.x := seq(|col|, i requires 0 <= i < |col| => col[i].x)]
        [l.y := seq(|col|, i requires 0 <= i < |col| => col[i].y)]
        [l.z := seq(|col|, i requires 0 <= i < |col| => col[i].z)]
  }

  /** Reading back what `Store` wrote gives the samples written, and the data stays
      aligned. */
  lemma StoreRead(data: map<string, Column>, l: Labels, col: seq<Triple>)
    requires Aligned(data, |col|) && Distinct(l)
    ensures var d := Store(data, l, col);
      Aligned(d, |col|) && HasColumns(d, l)
      && forall i :: 0 <= i < |col| ==> Sample(d, l, i) == col[i]
  {
  }

  /** Storing under `l` keeps the data aligned and keeps the columns of `m`. */
  lemma StoreShape(data: map<string, Column>, n: nat, l: Labels, col: seq<Triple>, m: Labels)
    requires Aligned(data, n) && |col| == n && HasColumns(data, m)
    ensures var d := Store(data, l, col);
      Aligned(d, n) && HasColumns(d, l) && HasColumns(d, m)
  {
  }

  /** Storing under `l` leaves a vector kept under labels apart from `l` as it was. */
  lemma StoreKeeps(data: map<string, Column>, l: Labels, col: seq<Triple>, m: Labels)
    requires Aligned(data, |col|) && HasColumns(data, m) && Apart(l, m)
    ensures var d := Store(data, l, col);
      HasColumns(d, m) && forall i :: 0 <= i < |col| ==> Sample(d, m, i) == Sample(data, m, i)
  {
  }

  /** The column under `k`, if there is one. */
  function Existing(data: map<string, Column>, k: string): (c: Option<Column>)
    ensures c.Some? <==> k in data
  {
    if k in data then Some(data[k]) else None
  }

  /** A pysat `Instrument`, reduced to its index and its data columns. */
  class Instrument {
    var index: seq<real>
    var data: map<string, Column>

    predicate Valid()
      reads this
    {
      Aligned(data, |index|)
    }

    constructor(index: seq<real>, data: map<string, Column>)
      requires Aligned(data, |index|)
      ensures Valid() && this.index == index && this.data == data
    {
      this.index := index;
      this.data := data;
    }

    /** `inst[label] = values`. */
    method SetColumn(k: string, col: Column)
      requires Valid() && |col| == |index|
      modifies this`data
      ensures Valid() && data == old(data)[k := col]
    {
      data := data[k := col];
    }

    /** Three `inst[label] = values` statements, one per component of `col`. */
    method SetVector(l: Labels, col: seq<Triple>)
      requires Valid() && |col| == |index| && Distinct(l)
      modifies this`data
      ensures Valid() && HasColumns(data, l)
      ensures data == Store(old(data), l, col)
    {
      data := Store(data, l, col);
      StoreRead(old(data), l, col);
    }
  }
}
