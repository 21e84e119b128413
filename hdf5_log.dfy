/**
 * The HDF5 logger of HOOMD-blue (hoomd/hdf5.py, class `log`): the part that
 * keeps the file's layout consistent and appends one row per write.
 *
 * An HDF5 file is a map from dataset name to a `Dataset`: its shape after the
 * first (row) axis, the rows logged so far and its attribute table. Single
 * values live in the dataset "single_values", whose attributes map each
 * quantity name to its column; each matrix quantity has a dataset of its own.
 * h5py writes through at once, so a write that raises leaves whatever it had
 * already changed: the specification functions return the datasets together
 * with the error, if any, and the methods are proved to match them.
 */
module Hdf5Log {
  import opened Common

  /** The name of the dataset that holds the single values. */
  const SINGLE_VALUES: string := "single_values"

  /**
   * One HDF5 dataset: `inner` is its shape without the first axis, `rows` the
   * entries along the first axis (each flattened), `attrs` its attributes.
   */
  datatype Dataset = Dataset(inner: seq<nat>, rows: seq<seq<real>>, attrs: map<string, int>)

  type Datasets = map<string, Dataset>

  /**
   * What the C++ logger hands back for a matrix quantity: a numpy array, some
   * other Python object, or an exception.
   */
  datatype MatrixValue = NdArray(shape: seq<nat>, elems: seq<real>) | NotNdArray | Unobtainable

  /** The exceptions the writes raise (all RuntimeError but the first, an IndexError). */
  datatype LogError =
    | SingleValuesRank
    | ColumnCountLocked(stored: nat, requested: nat)
    | MisplacedQuantity(name: string, storedAt: int, requested: nat)
    | PositionTaken(name: string, position: nat)
    | SingleValueCountMismatch(stored: nat, given: nat)
    | NoMatrixValue(quantity: string)
    | NotAMatrix(quantity: string)
    | ZeroShapeMatrix(quantity: string)
    | RankMismatch(quantity: string, storedRank: nat, givenRank: nat)
    | DimensionMismatch(quantity: string, dim: nat)

  /** The datasets after a write, and the error it raised, if any. */
  datatype Effect = Effect(datasets: Datasets, err: Option<LogError>)

  // ---------------------------------------------------------------------
  // The attribute table of single_values

  /** The attributes after some passes of the name/column loop, and whether one raised. */
  datatype AttrSync = Synced(attrs: map<string, int>) | Clash(attrs: map<string, int>, error: LogError)

  /**
   * One pass of the loop: a stored name must sit at its own index; a new name
   * needs its index free, and is then stored there.
   */
  function PlaceQuantity(a: map<string, int>, name: string, i: nat): AttrSync
  {
    if name in a then
      if a[name] != i then Clash(a, MisplacedQuantity(name, a[name], i)) else Synced(a)
    else if exists k :: k in a && a[k] == i then Clash(a, PositionTaken(name, i))
    else Synced(a[name := i])
  }

  /** The first n passes of the loop over `qs`, from attributes `attrs`. */
  function SyncAttrs(attrs: map<string, int>, qs: seq<string>, n: nat): AttrSync
    requires n <= |qs|
  {
    if n == 0 then Synced(attrs)
    else
      match SyncAttrs(attrs, qs, n - 1)
      case Clash(a, e) => Clash(a, e)
      case Synced(a) => PlaceQuantity(a, qs[n - 1], n - 1)
  }

  /** No name occurs twice among the first n. */
  predicate DistinctUpTo(qs: seq<string>, n: nat)
    requires n <= |qs|
  {
    forall i, j :: 0 <= i < j < n ==> qs[i] != qs[j]
  }

  /**
   * The stored attributes agree with the first n names: a name already stored
   * sits at its own index, and the index of a name not yet stored is free.
   */
  predicate CompatibleUpTo(attrs: map<string, int>, qs: seq<string>, n: nat)
    requires n <= |qs|
  {
    forall i :: 0 <= i < n ==>
      && (qs[i] in attrs ==> attrs[qs[i]] == i)
      && (qs[i] !in attrs ==> forall k :: k in attrs ==> attrs[k] != i)
  }

  /**
   * The table `a` holds every entry of `attrs`, has the first n names at their
   * indices, and nothing else.
   */
  predicate PlacedUpTo(attrs: map<string, int>, a: map<string, int>, qs: seq<string>, n: nat)
    requires n <= |qs|
  {
    && (forall k :: k in attrs ==> k in a && a[k] == attrs[k])
    && (forall i :: 0 <= i < n ==> qs[i] in a && a[qs[i]] == i)
    && (forall k :: k in a ==> k in attrs || exists i :: 0 <= i < n && qs[i] == k)
  }

  /**
   * The loop succeeds exactly when the names are distinct and agree with the
   * stored table; then each name sits at its index and stored entries are kept.
   */
  lemma {:induction false} SyncAttrsSpec(attrs: map<string, int>, qs: seq<string>, n: nat)
    requires n <= |qs|
    ensures SyncAttrs(attrs, qs, n).Synced? <==> DistinctUpTo(qs, n) && CompatibleUpTo(attrs, qs, n)
    ensures SyncAttrs(attrs, qs, n).Synced? ==> PlacedUpTo(attrs, SyncAttrs(attrs, qs, n).attrs, qs, n)
  {
    if n > 0 {
      var m := n - 1;
      SyncAttrsSpec(attrs, qs, m);
      match SyncAttrs(attrs, qs, m)
      case Clash(_, _) =>
        assert !(DistinctUpTo(qs, m) && CompatibleUpTo(attrs, qs, m));
      case Synced(a) =>
        if qs[m] in a {
          PlaceStoredName(attrs, a, qs, m);
        } else {
          PlaceNewName(attrs, a, qs, m);
        }
    }
  }

  /** The pass for a name the table already holds. */
  lemma PlaceStoredName(attrs: map<string, int>, a: map<string, int>, qs: seq<string>, m: nat)
    requires m < |qs| && qs[m] in a
    requires DistinctUpTo(qs, m) && CompatibleUpTo(attrs, qs, m) && PlacedUpTo(attrs, a, qs, m)
    ensures PlaceQuantity(a, qs[m], m).Synced? <==> DistinctUpTo(qs, m + 1) && CompatibleUpTo(attrs, qs, m + 1)
    ensures PlaceQuantity(a, qs[m], m).Synced? ==> PlacedUpTo(attrs, PlaceQuantity(a, qs[m], m).attrs, qs, m + 1)
  {
  }

  /** The pass for a name the table does not hold yet. */
  lemma PlaceNewName(attrs: map<string, int>, a: map<string, int>, qs: seq<string>, m: nat)
    requires m < |qs| && qs[m] !in a
    requires DistinctUpTo(qs, m) && CompatibleUpTo(attrs, qs, m) && PlacedUpTo(attrs, a, qs, m)
    ensures PlaceQuantity(a, qs[m], m).Synced? <==> DistinctUpTo(qs, m + 1) && CompatibleUpTo(attrs, qs, m + 1)
    ensures PlaceQuantity(a, qs[m], m).Synced? ==> PlacedUpTo(attrs, PlaceQuantity(a, qs[m], m).attrs, qs, m + 1)
  {
  }

  /** Once a pass raises, later passes do nothing. */
  lemma {:induction false} ClashPersists(attrs: map<string, int>, qs: seq<string>, i: nat, n: nat)
    requires i <= n <= |qs| && SyncAttrs(attrs, qs, i).Clash?
    ensures SyncAttrs(attrs, qs, n) == SyncAttrs(attrs, qs, i)
  {
    if n > i {
      ClashPersists(attrs, qs, i, n - 1);
    }
  }

  // ---------------------------------------------------------------------
  // _write_header

  /**
   * The single_values dataset the attribute loop starts from: created empty
   * when missing, reset (zero rows, new width, no attributes) when the width
   * differs and nothing is logged yet; a width change with rows logged raises.
   */
  function PrepareSingleValues(ds: Datasets, count: nat): Result<Dataset, LogError>
  {
    if SINGLE_VALUES in ds then
      var d := ds[SINGLE_VALUES];
      if |d.inner| == 0 then Failure(SingleValuesRank)
      else if d.inner[0] != count then
        if |d.rows| == 0 then Success(Dataset([count], [], map[]))
        else Failure(ColumnCountLocked(d.inner[0], count))
      else Success(d)
    else Success(Dataset([count], [], map[]))
  }

  /** `_write_header(f)` on the root rank, for the logged quantities `qs`. */
  function HeaderEffect(ds: Datasets, qs: seq<string>): (e: Effect)
    ensures e.err.None? ==>
      SINGLE_VALUES in e.datasets && |e.datasets[SINGLE_VALUES].inner| >= 1
      && e.datasets[SINGLE_VALUES].inner[0] == |qs|
  {
    match PrepareSingleValues(ds, |qs|)
    case Failure(err) => Effect(ds, Some(err))
    case Success(d) =>
      match SyncAttrs(d.attrs, qs, |qs|)
      case Synced(a) => Effect(ds[SINGLE_VALUES := d.(attrs := a)], None)
      case Clash(a, err) => Effect(ds[SINGLE_VALUES := d.(attrs := a)], Some(err))
  }

  /** The rows single_values keeps through a successful header: all of them, or none after a reset. */
  function KeptRows(ds: Datasets, count: nat): seq<seq<real>>
  {
    if WidthMatches(ds, count) then ds[SINGLE_VALUES].rows
    else []
  }

  /**
   * When the header succeeds: a missing dataset or a width change on an
   * empty dataset needs only distinct names; a dataset of the right width
   * needs its stored table to agree; a width change with rows logged always
   * raises and changes nothing.
   */
  lemma HeaderAcceptsIff(ds: Datasets, qs: seq<string>)
    ensures SINGLE_VALUES !in ds ==>
      (HeaderEffect(ds, qs).err.None? <==> DistinctUpTo(qs, |qs|))
    ensures SINGLE_VALUES in ds && |ds[SINGLE_VALUES].inner| >= 1 && ds[SINGLE_VALUES].inner[0] != |qs| ==>
      if |ds[SINGLE_VALUES].rows| == 0 then
        HeaderEffect(ds, qs).err.None? <==> DistinctUpTo(qs, |qs|)
      else
        HeaderEffect(ds, qs) == Effect(ds, Some(ColumnCountLocked(ds[SINGLE_VALUES].inner[0], |qs|)))
    ensures SINGLE_VALUES in ds && |ds[SINGLE_VALUES].inner| >= 1 && ds[SINGLE_VALUES].inner[0] == |qs| ==>
      (HeaderEffect(ds, qs).err.None? <==>
        DistinctUpTo(qs, |qs|) && CompatibleUpTo(ds[SINGLE_VALUES].attrs, qs, |qs|))
    ensures SINGLE_VALUES in ds && |ds[SINGLE_VALUES].inner| == 0 ==>
      HeaderEffect(ds, qs) == Effect(ds, Some(SingleValuesRank))
  {
    match PrepareSingleValues(ds, |qs|)
    case Failure(_) =>
    case Success(d) =>
      SyncAttrsSpec(d.attrs, qs, |qs|);
  }

  /** single_values exists and already has one column per quantity: the header neither creates nor resets it. */
  predicate WidthMatches(ds: Datasets, count: nat)
  {
    SINGLE_VALUES in ds && |ds[SINGLE_VALUES].inner| >= 1 && ds[SINGLE_VALUES].inner[0] == count
  }

  /**
   * After a successful header every quantity name is stored at its index,
   * the rows are kept (or were none), and no other dataset changed. A
   * created or reset table holds the names and nothing else; a kept table
   * keeps every stored entry and gains only names.
   */
  lemma HeaderPlacesNames(ds: Datasets, qs: seq<string>)
    requires HeaderEffect(ds, qs).err.None?
    ensures var out := HeaderEffect(ds, qs).datasets;
      && (forall i :: 0 <= i < |qs| ==> qs[i] in out[SINGLE_VALUES].attrs && out[SINGLE_VALUES].attrs[qs[i]] == i)
      && out[SINGLE_VALUES].rows == KeptRows(ds, |qs|)
      && (forall k :: k != SINGLE_VALUES ==> (k in out <==> k in ds) && (k in ds ==> out[k] == ds[k]))
    ensures var attrs := HeaderEffect(ds, qs).datasets[SINGLE_VALUES].attrs;
      !WidthMatches(ds, |qs|) ==> forall k :: k in attrs ==> exists i :: 0 <= i < |qs| && qs[i] == k
    ensures var attrs := HeaderEffect(ds, qs).datasets[SINGLE_VALUES].attrs;
      WidthMatches(ds, |qs|) ==>
        && (forall k :: k in ds[SINGLE_VALUES].attrs ==> k in attrs && attrs[k] == ds[SINGLE_VALUES].attrs[k])
        && (forall k :: k in attrs ==> k in ds[SINGLE_VALUES].attrs || exists i :: 0 <= i < |qs| && qs[i] == k)
  {
    match PrepareSingleValues(ds, |qs|)
    case Failure(_) =>
    case Success(d) =>
      SyncAttrsSpec(d.attrs, qs, |qs|);
  }

  /** A name listed twice is always rejected. */
  lemma DuplicateNamesRejected(ds: Datasets, qs: seq<string>, i: nat, j: nat)
    requires i < j < |qs| && qs[i] == qs[j]
    ensures HeaderEffect(ds, qs).err.Some?
  {
    match PrepareSingleValues(ds, |qs|)
    case Failure(_) =>
    case Success(d) =>
      SyncAttrsSpec(d.attrs, qs, |qs|);
  }

  // ---------------------------------------------------------------------
  // _write_single_values

  /** `_write_single_values(f, ...)` on the root rank, logging `arr`. */
  function SingleValuesEffect(ds: Datasets, qs: seq<string>, arr: seq<real>): Effect
  {
    var h := HeaderEffect(ds, qs);
    if h.err.Some? then h
    else
      var d := h.datasets[SINGLE_VALUES];
      if d.inner[0] != |arr| then Effect(h.datasets, Some(SingleValueCountMismatch(d.inner[0], |arr|)))
      else Effect(h.datasets[SINGLE_VALUES := d.(rows := d.rows + [arr])], None)
  }

  /**
   * A single-value write succeeds exactly when the header does and the array
   * has one entry per quantity; it then appends exactly one row, the array,
   * and leaves the header's attribute table and every other dataset alone.
   */
  lemma SingleWriteAppendsOneRow(ds: Datasets, qs: seq<string>, arr: seq<real>)
    ensures SingleValuesEffect(ds, qs, arr).err.None? <==> HeaderEffect(ds, qs).err.None? && |arr| == |qs|
    ensures SingleValuesEffect(ds, qs, arr).err.None? ==>
      var out := SingleValuesEffect(ds, qs, arr).datasets;
      && SINGLE_VALUES in out && out[SINGLE_VALUES].rows == KeptRows(ds, |qs|) + [arr]
      && out[SINGLE_VALUES].attrs == HeaderEffect(ds, qs).datasets[SINGLE_VALUES].attrs
      && (forall k :: k != SINGLE_VALUES ==> (k in out <==> k in ds) && (k in ds ==> out[k] == ds[k]))
  {
    if HeaderEffect(ds, qs).err.None? {
      HeaderPlacesNames(ds, qs);
    }
  }

  // ---------------------------------------------------------------------
  // _write_matrix_values

  /** Every dimension is zero; true of a zero-dimensional array too. */
  predicate ZeroShape(shape: seq<nat>)
  {
    forall d :: d in shape ==> d == 0
  }

  /** The first dimension where two shapes of equal rank differ, or the rank. */
  function FirstMismatch(stored: seq<nat>, given: seq<nat>): (r: nat)
    requires |stored| == |given|
    ensures r <= |given|
    ensures forall i :: 0 <= i < r ==> stored[i] == given[i]
    ensures r < |given| ==> stored[r] != given[r]
  {
    if |given| == 0 || stored[0] != given[0] then 0
    else 1 + FirstMismatch(stored[1..], given[1..])
  }

  /** The value the logger hands back for quantity q. */
  function ValueOf(values: map<string, MatrixValue>, q: string): MatrixValue
  {
    if q in values then values[q] else Unobtainable
  }

  /** One matrix quantity on the root rank: check the value, create or check the dataset, append. */
  function StoreMatrix(ds: Datasets, q: string, v: MatrixValue): Effect
  {
    match v
    case Unobtainable => Effect(ds, Some(NoMatrixValue(q)))
    case NotNdArray => Effect(ds, Some(NotAMatrix(q)))
    case NdArray(shape, elems) =>
      if ZeroShape(shape) then Effect(ds, Some(ZeroShapeMatrix(q)))
      else if q !in ds then Effect(ds[q := Dataset(shape, [elems], map[])], None)
      else
        var d := ds[q];
        if |shape| != |d.inner| then Effect(ds, Some(RankMismatch(q, |d.inner| + 1, |shape| + 1)))
        else
          var i := FirstMismatch(d.inner, shape);
          if i < |shape| then Effect(ds, Some(DimensionMismatch(q, i)))
          else Effect(ds[q := d.(rows := d.rows + [elems])], None)
  }

  /**
   * The first n quantities of `_write_matrix_values`. Fetching a value raises
   * on every rank; only the root rank (`root`) touches the file.
   */
  function MatrixEffect(ds: Datasets, qs: seq<string>, values: map<string, MatrixValue>, root: bool, n: nat): Effect
    requires n <= |qs|
  {
    if n == 0 then Effect(ds, None)
    else
      var prev := MatrixEffect(ds, qs, values, root, n - 1);
      if prev.err.Some? then prev
      else
        var v := ValueOf(values, qs[n - 1]);
        if v.Unobtainable? then Effect(prev.datasets, Some(NoMatrixValue(qs[n - 1])))
        else if root then StoreMatrix(prev.datasets, qs[n - 1], v)
        else prev
  }

  /**
   * One matrix is stored exactly when it is an array with some non-zero
   * dimension whose shape equals that of any existing dataset of that name;
   * then that dataset gains exactly one row, the matrix, and nothing else
   * changes. A rejected matrix changes nothing.
   */
  lemma StoreMatrixAppendsOneRow(ds: Datasets, q: string, v: MatrixValue)
    ensures StoreMatrix(ds, q, v).err.None? <==>
      v.NdArray? && !ZeroShape(v.shape) && (q in ds ==> ds[q].inner == v.shape)
    ensures StoreMatrix(ds, q, v).err.Some? ==> StoreMatrix(ds, q, v).datasets == ds
    ensures StoreMatrix(ds, q, v).err.None? ==>
      var out := StoreMatrix(ds, q, v).datasets;
      && q in out && out[q].inner == v.shape
      && out[q].rows == (if q in ds then ds[q].rows else []) + [v.elems]
      && out[q].attrs == (if q in ds then ds[q].attrs else map[])
      && (forall k :: k != q ==> (k in out <==> k in ds) && (k in ds ==> out[k] == ds[k]))
  {
  }

  /** On a rank other than the root the file is never touched. */
  lemma {:induction false} NonRootLeavesFileAlone(ds: Datasets, qs: seq<string>, values: map<string, MatrixValue>, n: nat)
    requires n <= |qs|
    ensures MatrixEffect(ds, qs, values, false, n).datasets == ds
  {
    if n > 0 {
      NonRootLeavesFileAlone(ds, qs, values, n - 1);
    }
  }

  /**
   * After a successful matrix write on the root rank every listed quantity
   * has a dataset shaped like the value it logged.
   */
  lemma {:induction false} MatrixWriteShapes(ds: Datasets, qs: seq<string>, values: map<string, MatrixValue>, n: nat)
    requires n <= |qs|
    requires MatrixEffect(ds, qs, values, true, n).err.None?
    ensures forall i :: 0 <= i < n ==>
      var out := MatrixEffect(ds, qs, values, true, n).datasets;
      ValueOf(values, qs[i]).NdArray? && qs[i] in out && out[qs[i]].inner == ValueOf(values, qs[i]).shape
  {
    if n > 0 {
      var prev := MatrixEffect(ds, qs, values, true, n - 1);
      MatrixWriteShapes(ds, qs, values, n - 1);
      StoreMatrixAppendsOneRow(prev.datasets, qs[n - 1], ValueOf(values, qs[n - 1]));
    }
  }

  /** Once a quantity raises, the later ones are not processed. */
  lemma {:induction false} MatrixErrorPersists(ds: Datasets, qs: seq<string>, values: map<string, MatrixValue>,
                                               root: bool, i: nat, n: nat)
    requires i <= n <= |qs| && MatrixEffect(ds, qs, values, root, i).err.Some?
    ensures MatrixEffect(ds, qs, values, root, n) == MatrixEffect(ds, qs, values, root, i)
  {
    if n > i {
      MatrixErrorPersists(ds, qs, values, root, i, n - 1);
    }
  }

  // ---------------------------------------------------------------------
  // The objects

  /** An open HDF5 file (`h5py.File`). */
  class H5File {
    var datasets: Datasets

    constructor (datasets: Datasets)
      ensures this.datasets == datasets
    {
      this.datasets := datasets;
    }
  }

  /**
   * `hoomd.hdf5.log`: the names of the logged single and matrix quantities.
   * Every write takes the open file, or null on a rank other than the root.
   */
  class Log {
    var quantities: seq<string>
    var matrixQuantities: seq<string>

    constructor (quantities: seq<string>, matrixQuantities: seq<string>)
      ensures this.quantities == quantities && this.matrixQuantities == matrixQuantities
    {
      this.quantities := quantities;
      this.matrixQuantities := matrixQuantities;
    }

    /** `set_params(quantities=None, matrix_quantities=None)`: None leaves a list unchanged. */
    method SetParams(quantities: Option<seq<string>> := None, matrixQuantities: Option<seq<string>> := None)
      modifies this
      ensures this.quantities == (if quantities.Some? then quantities.value else old(this.quantities))
      ensures this.matrixQuantities ==
        (if matrixQuantities.Some? then matrixQuantities.value else old(this.matrixQuantities))
    {
      if quantities.Some? {
        this.quantities := quantities.value;
      }
      if matrixQuantities.Some? {
        this.matrixQuantities := matrixQuantities.value;
      }
    }

    /** `_write_header(f)` */
    method WriteHeader(f: H5File?) returns (err: Option<LogError>)
      modifies f
      ensures f == null ==> err.None?
      ensures f != null ==> Effect(f.datasets, err) == HeaderEffect(old(f.datasets), quantities)
    {
      if f == null {
        return None;
      }
      var count := |quantities|;
      var d: Dataset;
      if SINGLE_VALUES in f.datasets {
        d := f.datasets[SINGLE_VALUES];
        if |d.inner| == 0 {
          return Some(SingleValuesRank);
        }
        if d.inner[0] != count {
          if |d.rows| != 0 {
            return Some(ColumnCountLocked(d.inner[0], count));
          }
          // data_set.resize((0, len(quantities))), then delete every attribute
          d := d.(inner := [count]);
          f.datasets := f.datasets[SINGLE_VALUES := d];
          var keys := d.attrs.Keys;
          while keys != {}
            invariant d.attrs.Keys == keys
            invariant d.inner == [count] && d.rows == []
            invariant f.datasets == old(f.datasets)[SINGLE_VALUES := d]
            decreases keys
          {
            var k :| k in keys;
            d := d.(attrs := d.attrs - {k});
            f.datasets := f.datasets[SINGLE_VALUES := d];
            keys := keys - {k};
          }
          assert d == Dataset([count], [], map[]);
        }
      } else {
        d := Dataset([count], [], map[]);
        f.datasets := f.datasets[SINGLE_VALUES := d];
      }
      assert PrepareSingleValues(old(f.datasets), count) == Success(d);

      ghost var start := d;
      for i := 0 to count
        invariant f.datasets == old(f.datasets)[SINGLE_VALUES := d]
        invariant d == start.(attrs := d.attrs)
        invariant SyncAttrs(start.attrs, quantities, i) == Synced(d.attrs)
      {
        var q := quantities[i];
        if q in d.attrs {
          if d.attrs[q] != i {
            ClashPersists(start.attrs, quantities, i + 1, count);
            return Some(MisplacedQuantity(q, d.attrs[q], i));
          }
        } else {
          var keys := d.attrs.Keys;
          while keys != {}
            invariant keys <= d.attrs.Keys
            invariant forall k :: k in d.attrs && k !in keys ==> d.attrs[k] != i
            decreases keys
          {
            var k :| k in keys;
            if d.attrs[k] == i {
              ClashPersists(start.attrs, quantities, i + 1, count);
              return Some(PositionTaken(q, i));
            }
            keys := keys - {k};
          }
          d := d.(attrs := d.attrs[q := i]);
          f.datasets := f.datasets[SINGLE_VALUES := d];
        }
      }
      return None;
    }

    /** `_write_single_values(f, ...)`; `newArray` is the array the C++ logger returns. */
    method WriteSingleValues(f: H5File?, newArray: seq<real>) returns (err: Option<LogError>)
      modifies f
      ensures f == null ==> err.None?
      ensures f != null ==> Effect(f.datasets, err) == SingleValuesEffect(old(f.datasets), quantities, newArray)
    {
      err := WriteHeader(f);
      if err.Some? || f == null {
        return;
      }
      var d := f.datasets[SINGLE_VALUES];
      var oldSize := |d.rows|;
      if d.inner[0] != |newArray| {
        return Some(SingleValueCountMismatch(d.inner[0], |newArray|));
      }
      // data_set.resize(old_size + 1, axis=0); data_set[old_size,] = new_array
      d := d.(rows := d.rows + [newArray]);
      assert d.rows[oldSize] == newArray;
      f.datasets := f.datasets[SINGLE_VALUES := d];
    }

    /** `_write_matrix_values(f, ...)`; `values` is what the C++ logger returns per quantity. */
    method WriteMatrixValues(f: H5File?, values: map<string, MatrixValue>) returns (err: Option<LogError>)
      modifies f
      ensures f == null ==> err == MatrixEffect(map[], matrixQuantities, values, false, |matrixQuantities|).err
      ensures f != null ==>
        Effect(f.datasets, err) == MatrixEffect(old(f.datasets), matrixQuantities, values, true, |matrixQuantities|)
    {
      err := None;
      var qs := matrixQuantities;
      ghost var ds0: Datasets := if f != null then f.datasets else map[];
      for n := 0 to |qs|
        invariant f != null ==> Effect(f.datasets, None) == MatrixEffect(ds0, qs, values, true, n)
        invariant f == null ==> MatrixEffect(map[], qs, values, false, n).err.None?
        invariant err.None?
      {
        var q := qs[n];
        var v := ValueOf(values, q);
        if v.Unobtainable? {
          if f != null {
            MatrixErrorPersists(ds0, qs, values, true, n + 1, |qs|);
          } else {
            MatrixErrorPersists(map[], qs, values, false, n + 1, |qs|);
          }
          return Some(NoMatrixValue(q));
        }
        if f != null {
          err := StoreMatrixValue(f, q, v);
          if err.Some? {
            MatrixErrorPersists(ds0, qs, values, true, n + 1, |qs|);
            return;
          }
        }
      }
    }

    /** `_write_hdf5`: the single values, then the matrices (the file already open, or null). */
    method WriteHdf5(f: H5File?, newArray: seq<real>, values: map<string, MatrixValue>) returns (err: Option<LogError>)
      modifies f
      ensures f == null ==> err == MatrixEffect(map[], matrixQuantities, values, false, |matrixQuantities|).err
      ensures f != null ==>
        var single := SingleValuesEffect(old(f.datasets), quantities, newArray);
        Effect(f.datasets, err) ==
          if single.err.Some? then single
          else MatrixEffect(single.datasets, matrixQuantities, values, true, |matrixQuantities|)
    {
      err := WriteSingleValues(f, newArray);
      if err.Some? {
        return;
      }
      err := WriteMatrixValues(f, values);
    }
  }

  /** The body of the loop of `_write_matrix_values` on the root rank, for one quantity. */
  method StoreMatrixValue(f: H5File, q: string, v: MatrixValue) returns (err: Option<LogError>)
    requires !v.Unobtainable?
    modifies f
    ensures Effect(f.datasets, err) == StoreMatrix(old(f.datasets), q, v)
  {
    if v.NotNdArray? {
      return Some(NotAMatrix(q));
    }
    var zeroShape := true;
    for j := 0 to |v.shape|
      invariant zeroShape <==> forall k :: 0 <= k < j ==> v.shape[k] == 0
    {
      if v.shape[j] != 0 {
        zeroShape := false;
      }
    }
    if zeroShape {
      return Some(ZeroShapeMatrix(q));
    }
    ghost var nonzero :| 0 <= nonzero < |v.shape| && v.shape[nonzero] != 0;
    assert v.shape[nonzero] in v.shape;
    var d: Dataset;
    if q !in f.datasets {
      d := Dataset(v.shape, [], map[]);
      f.datasets := f.datasets[q := d];
    } else {
      d := f.datasets[q];
      if |v.shape| + 1 != |d.inner| + 1 {
        return Some(RankMismatch(q, |d.inner| + 1, |v.shape| + 1));
      }
      for j := 0 to |v.shape|
        invariant forall k :: 0 <= k < j ==> d.inner[k] == v.shape[k]
      {
        if d.inner[j] != v.shape[j] {
          assert FirstMismatch(d.inner, v.shape) == j;
          return Some(DimensionMismatch(q, j));
        }
      }
      assert FirstMismatch(d.inner, v.shape) == |v.shape|;
    }
    // data_set.resize(old_size + 1, axis=0); data_set[old_size,] = new_matrix
    d := d.(rows := d.rows + [v.elems]);
    f.datasets := f.datasets[q := d];
    assert f.datasets == old(f.datasets)[q := d];
    assert !ZeroShape(v.shape);
    if q in old(f.datasets) {
      assert d == old(f.datasets)[q].(rows := old(f.datasets)[q].rows + [v.elems]);
      assert FirstMismatch(old(f.datasets)[q].inner, v.shape) == |v.shape|;
    } else {
      assert d == Dataset(v.shape, [v.elems], map[]);
    }
    return None;
  }
}
