/** The propagation state manager: the objects being propagated, the
    properties propagated for each of them, and the state map that lays
    those properties out as one state vector ordered by element id
    (src/base/propagator/PropagationStateManager.cpp). */
module PropagationStateManagerModel {
  import opened Common
  import opened Matrices
  import opened CovarianceModel

  // ---------------------------------------------------------------------
  // What the manager asks of a propagated object

  /** The type of the parameter behind a propagated property. */
  datatype ParamKind = RealParam | RvectorParam | RmatrixParam | OtherParam

  /** An object's answer for one of its propagatable properties: the state
      element id (SetPropItem), the number of state entries
      (GetPropItemSize), the parameter type and, for a vector or a matrix,
      its row length (the vector size or the number of columns). */
  datatype PropItem = PropItem(id: int, size: int, kind: ParamKind, rowLength: int)

  /** A propagated object, reduced to what the manager asks of it. Equal
      values are the same object (GMAT compares pointers). A property
      missing from items is one SetPropItem answers UNKNOWN_STATE for;
      stmRowIds[c] is GetStmRowId(c). */
  datatype SpaceObject = SpaceObject(
    handle: nat,
    name: string,
    isFormation: bool,
    epochId: int,
    epochIsReal: bool,
    a1EpochId: int,
    defaultProps: seq<string>,
    items: map<string, PropItem>,
    stmRowIds: seq<int>)

  /** A matrix property has at least one column, and the object names an STM
      row id for each column. */
  predicate WellFormed(obj: SpaceObject)
  {
    forall p :: p in obj.items && obj.items[p].kind == RmatrixParam ==>
      0 < obj.items[p].rowLength <= |obj.stmRowIds|
  }

  /** The epoch parameter the manager reads: A1Epoch for a formation, Epoch
      when that is a real-valued parameter, A1Epoch otherwise. */
  function EpochIdOf(obj: SpaceObject): int
  {
    if obj.isFormation then obj.a1EpochId
    else if obj.epochIsReal then obj.epochId
    else obj.a1EpochId
  }

  // ---------------------------------------------------------------------
  // The flattened state: one entry per state element

  /** One state entry: its owner, the property and the owner's answer for it. */
  datatype Entry = Entry(owner: SpaceObject, property: string, item: PropItem)

  /** The entries of one property: size copies, or the error thrown for an
      unknown property or a size <= 0. */
  function PropEntries(obj: SpaceObject, prop: string): (r: Result<seq<Entry>>)
    ensures r.Ok? <==> prop in obj.items && obj.items[prop].size > 0
    ensures r.Ok? ==> |r.value| == obj.items[prop].size
    ensures r.Ok? ==> forall k :: 0 <= k < |r.value| ==> r.value[k] == Entry(obj, prop, obj.items[prop])
  {
    if prop !in obj.items then
      Err("Unknown state element: " + prop + " on object " + obj.name)
    else if obj.items[prop].size <= 0 then
      Err("State element " + prop + " has size set less than or equal to 0; unable to continue.")
    else
      Ok(seq(obj.items[prop].size, _ => Entry(obj, prop, obj.items[prop])))
  }

  /** The entries of an object's property list, in list order; the first
      failing property decides the error. */
  function ObjectEntries(obj: SpaceObject, props: seq<string>): Result<seq<Entry>>
  {
    if props == [] then Ok([])
    else
      match ObjectEntries(obj, props[..|props| - 1])
      case Err(m) => Err(m)
      case Ok(e) =>
        match PropEntries(obj, props[|props| - 1])
        case Err(m) => Err(m)
        case Ok(f) => Ok(e + f)
  }

  /** The entries of all objects, in object order. */
  function AllEntries(objs: seq<SpaceObject>, elements: map<SpaceObject, seq<string>>): Result<seq<Entry>>
    requires forall o :: o in objs ==> o in elements
  {
    if objs == [] then Ok([])
    else
      match AllEntries(objs[..|objs| - 1], elements)
      case Err(m) => Err(m)
      case Ok(e) =>
        var last := objs[|objs| - 1];
        match ObjectEntries(last, elements[last])
        case Err(m) => Err(m)
        case Ok(f) => Ok(e + f)
  }

  /** The size the object reports for a property (0 for an unknown one). */
  function PropSize(obj: SpaceObject, prop: string): int
  {
    if prop in obj.items then obj.items[prop].size else 0
  }

  /** The sizes of a property list. */
  function PropSizes(obj: SpaceObject, props: seq<string>): (r: seq<int>)
    ensures |r| == |props| && forall i :: 0 <= i < |props| ==> r[i] == PropSize(obj, props[i])
  {
    seq(|props|, i requires 0 <= i < |props| => PropSize(obj, props[i]))
  }

  /** Building the entries of a property list fails exactly when some
      property is unknown or has size <= 0; otherwise there is one entry per
      unit of size, so the state grows by the sum of the sizes. */
  lemma {:induction false} ObjectEntriesMeaning(obj: SpaceObject, props: seq<string>)
    ensures ObjectEntries(obj, props).Ok? <==>
              forall i :: 0 <= i < |props| ==> props[i] in obj.items && obj.items[props[i]].size > 0
    ensures ObjectEntries(obj, props).Ok? ==> |ObjectEntries(obj, props).value| == Sum(PropSizes(obj, props))
    decreases |props|
  {
    if props != [] {
      var init := props[..|props| - 1];
      ObjectEntriesMeaning(obj, init);
      assert PropSizes(obj, props)[..|props| - 1] == PropSizes(obj, init);
      assert forall i :: 0 <= i < |init| ==> init[i] == props[i];
    }
  }

  /** The element ids of the entries. */
  function Ids(entries: seq<Entry>): (ids: seq<int>)
    ensures |ids| == |entries| && forall i :: 0 <= i < |entries| ==> ids[i] == entries[i].item.id
  {
    seq(|entries|, i requires 0 <= i < |entries| => entries[i].item.id)
  }

  // ---------------------------------------------------------------------
  // The ordering: insertion before the first strictly greater id

  /** Where the ordering loop inserts a new entry with element id `id`:
      before the first listed entry whose id is strictly greater, or at the
      end. */
  function InsertPosition(order: seq<nat>, ids: seq<int>, id: int): (p: nat)
    requires forall k :: 0 <= k < |order| ==> order[k] < |ids|
    ensures p <= |order|
    ensures forall k :: 0 <= k < p ==> ids[order[k]] <= id
    ensures p < |order| ==> id < ids[order[p]]
  {
    if order == [] then 0
    else if id < ids[order[0]] then 0
    else 1 + InsertPosition(order[1..], ids, id)
  }

  /** The ordering after every entry has been inserted in turn. */
  function OrderOf(ids: seq<int>): (o: seq<nat>)
    ensures |o| == |ids|
    ensures forall k :: 0 <= k < |o| ==> o[k] < |ids|
  {
    if ids == [] then []
    else
      var prev := OrderOf(ids[..|ids| - 1]);
      var p := InsertPosition(prev, ids, ids[|ids| - 1]);
      InsertAtIndex<nat>(prev, p, |ids| - 1);
      InsertAt<nat>(prev, p, |ids| - 1)
  }

  /** o lists every index below n exactly once. */
  predicate IsIndexPermutation(o: seq<nat>, n: nat)
  {
    |o| == n && NoDuplicates(o) && forall x :: 0 <= x < n ==> x in o
  }

  /** Along o the ids never decrease, and equal ids keep their original
      order: a stable sort by element id. */
  predicate SortedStably(o: seq<nat>, ids: seq<int>)
    requires forall k :: 0 <= k < |o| ==> o[k] < |ids|
  {
    forall p, q :: 0 <= p < q < |o| ==>
      ids[o[p]] < ids[o[q]] || (ids[o[p]] == ids[o[q]] && o[p] < o[q])
  }

  /** The ordering built by SortVector is a stable sort of the entries by
      element id. */
  lemma {:induction false} OrderIsStableSort(ids: seq<int>)
    ensures IsIndexPermutation(OrderOf(ids), |ids|)
    ensures SortedStably(OrderOf(ids), ids)
    decreases |ids|
  {
    if ids != [] {
      OrderIsStableSort(ids[..|ids| - 1]);
      OrderStep(ids);
    }
  }

  /** The inductive step: inserting the last entry into a stable sort of
      the others gives a stable sort of all of them. */
  lemma OrderStep(ids: seq<int>)
    requires ids != []
    requires IsIndexPermutation(OrderOf(ids[..|ids| - 1]), |ids| - 1)
    requires SortedStably(OrderOf(ids[..|ids| - 1]), ids[..|ids| - 1])
    ensures IsIndexPermutation(OrderOf(ids), |ids|)
    ensures SortedStably(OrderOf(ids), ids)
  {
    var n := |ids|;
    var prev := OrderOf(ids[..n - 1]);
    var pos := InsertPosition(prev, ids, ids[n - 1]);
    var o := InsertAt<nat>(prev, pos, n - 1);
    assert OrderOf(ids) == o;
    SortedOnPrefix(prev, ids);
    InsertKeepsSorted(prev, ids);
    InsertCovers(prev, n - 1, pos);
    SortedDistinct(o, ids);
  }

  /** An order of the first |ids| - 1 indices sorted by those ids is sorted
      by the full ids. */
  lemma SortedOnPrefix(prev: seq<nat>, ids: seq<int>)
    requires |ids| > 0 && forall k :: 0 <= k < |prev| ==> prev[k] < |ids| - 1
    requires SortedStably(prev, ids[..|ids| - 1])
    ensures SortedStably(prev, ids)
  {
    var init := ids[..|ids| - 1];
    assert forall k :: 0 <= k < |prev| ==> init[prev[k]] == ids[prev[k]];
  }

  /** Inserting the last index at its insert position keeps the order
      stably sorted. */
  lemma InsertKeepsSorted(prev: seq<nat>, ids: seq<int>)
    requires |ids| > 0 && forall k :: 0 <= k < |prev| ==> prev[k] < |ids| - 1
    requires SortedStably(prev, ids)
    ensures SortedStably(InsertAt<nat>(prev, InsertPosition(prev, ids, ids[|ids| - 1]), |ids| - 1), ids)
  {
    var n := |ids|;
    var x := ids[n - 1];
    var pos := InsertPosition(prev, ids, x);
    var o := InsertAt<nat>(prev, pos, n - 1);
    InsertAtIndex<nat>(prev, pos, n - 1);
    forall p, q | 0 <= p < q < |o|
      ensures ids[o[p]] < ids[o[q]] || (ids[o[p]] == ids[o[q]] && o[p] < o[q])
    {
      if q < pos {
        assert o[p] == prev[p] && o[q] == prev[q];
      } else if q == pos {
        assert o[p] == prev[p] && ids[o[p]] <= x;
      } else if p < pos {
        assert o[p] == prev[p] && o[q] == prev[q - 1];
      } else if p == pos {
        assert o[q] == prev[q - 1];
        assert x < ids[prev[pos]];
        assert pos == q - 1 || ids[prev[pos]] <= ids[prev[q - 1]];
      } else {
        assert o[p] == prev[p - 1] && o[q] == prev[q - 1];
      }
    }
  }

  /** Inserting the next index into an order that lists all earlier ones
      gives an order that lists them all. */
  lemma InsertCovers(prev: seq<nat>, n: nat, pos: nat)
    requires pos <= |prev| && forall x :: 0 <= x < n ==> x in prev
    ensures forall x :: 0 <= x < n + 1 ==> x in InsertAt<nat>(prev, pos, n)
  {
    var o := InsertAt<nat>(prev, pos, n);
    InsertAtIndex<nat>(prev, pos, n);
    forall y | 0 <= y < n + 1
      ensures y in o
    {
      if y < n {
        assert y in prev;
        var k :| 0 <= k < |prev| && prev[k] == y;
        if k < pos {
          assert o[k] == y;
        } else {
          assert o[k + 1] == y;
        }
      } else {
        assert o[pos] == y;
      }
    }
  }

  /** A stably sorted order lists no index twice. */
  lemma SortedDistinct(o: seq<nat>, ids: seq<int>)
    requires forall k :: 0 <= k < |o| ==> o[k] < |ids|
    requires SortedStably(o, ids)
    ensures NoDuplicates(o)
  {
    forall p, q | 0 <= p < q < |o|
      ensures o[p] != o[q]
    {
    }
  }

  /** The ordering loop of SortVector for one new entry: walk the order
      until an entry with a strictly greater id, insert there, else append. */
  method InsertInOrder(order: seq<nat>, ids: seq<int>, loc: nat) returns (r: seq<nat>)
    requires loc < |ids| && forall k :: 0 <= k < |order| ==> order[k] < |ids|
    ensures r == InsertAt<nat>(order, InsertPosition(order, ids, ids[loc]), loc)
  {
    var id := ids[loc];
    var k := 0;
    while k < |order|
      invariant 0 <= k <= |order|
      invariant forall j :: 0 <= j < k ==> ids[order[j]] <= id
    {
      var val := ids[order[k]];
      if id < val {
        InsertPositionIs(order, ids, id, k);
        return InsertAt<nat>(order, k, loc);
      }
      k := k + 1;
    }
    InsertPositionIs(order, ids, id, |order|);
    r := order + [loc];
  }

  /** The insert position is the first index whose id is strictly greater. */
  lemma {:induction false} InsertPositionIs(order: seq<nat>, ids: seq<int>, id: int, k: nat)
    requires forall j :: 0 <= j < |order| ==> order[j] < |ids|
    requires k <= |order| && forall j :: 0 <= j < k ==> ids[order[j]] <= id
    requires k < |order| ==> id < ids[order[k]]
    ensures InsertPosition(order, ids, id) == k
    decreases |order|
  {
    if order != [] && k > 0 {
      InsertPositionIs(order[1..], ids, id, k - 1);
    }
  }

  // ---------------------------------------------------------------------
  // The state map

  /** One entry of the state map. rowIndex and colIndex are set only for
      vector and matrix parameters. */
  datatype StateItem = StateItem(
    owner: SpaceObject,
    elementName: string,
    elementID: int,
    subelement: int,
    length: int,
    rowIndex: Option<int>,
    colIndex: Option<int>)

  /** The running sub-element counter `val` at position i of the state map:
      it starts at 1, counts up, and restarts at 1 after it has reached the
      length of the previous item. */
  function Counter(lengths: seq<int>, i: nat): (v: int)
    requires i < |lengths|
    ensures v >= 1
    decreases i
  {
    if i == 0 then 1
    else if Counter(lengths, i - 1) != lengths[i - 1] then Counter(lengths, i - 1) + 1
    else 1
  }

  /** Over a run of items that all have length m, the counter cycles
      1, 2, ..., m, 1, 2, ... */
  lemma {:induction false} CounterCycles(lengths: seq<int>, m: int, i: nat)
    requires m > 0 && forall k :: 0 <= k < |lengths| ==> lengths[k] == m
    requires i < |lengths|
    ensures Counter(lengths, i) == i % m + 1
    decreases i
  {
    if i == 0 {
      ModUnique(0, m, 0, 0);
    } else {
      CounterCycles(lengths, m, i - 1);
      ModNext(i - 1, m);
    }
  }

  /** The state-map item for an entry with sub-element val: a vector
      parameter's row is val - 1, a matrix parameter's sub-element is read in
      row-major order. */
  function MakeItem(e: Entry, val: int): (it: StateItem)
    requires val >= 1 && (e.item.kind == RmatrixParam ==> e.item.rowLength > 0)
    ensures it.owner == e.owner && it.elementName == e.property && it.elementID == e.item.id
    ensures it.subelement == val && it.length == e.item.size
    ensures e.item.kind == RvectorParam ==> it.rowIndex == Some(val - 1) && it.colIndex.None?
    ensures e.item.kind == RmatrixParam ==>
              && it.rowIndex.Some? && it.colIndex.Some?
              && 0 <= it.colIndex.value < e.item.rowLength && 0 <= it.rowIndex.value
    ensures e.item.kind != RvectorParam && e.item.kind != RmatrixParam ==> it.rowIndex.None? && it.colIndex.None?
  {
    var row: Option<int> :=
      if e.item.kind == RvectorParam then Some(val - 1)
      else if e.item.kind == RmatrixParam then Some((val - 1) / e.item.rowLength)
      else None;
    var col: Option<int> :=
      if e.item.kind == RmatrixParam then Some((val - 1) % e.item.rowLength) else None;
    StateItem(e.owner, e.property, e.item.id, val, e.item.size, row, col)
  }

  /** A matrix parameter's sub-element val sits at row-major position
      val - 1: row * rowLength + col. */
  lemma MakeItemRowMajor(e: Entry, val: int)
    requires val >= 1 && e.item.kind == RmatrixParam && e.item.rowLength > 0
    ensures var it := MakeItem(e, val);
            it.rowIndex.value * e.item.rowLength + it.colIndex.value == val - 1
  {
  }

  /** Every entry fits its owner's STM row table. */
  predicate EntriesWellFormed(entries: seq<Entry>)
  {
    forall k :: 0 <= k < |entries| ==> EntryFits(entries[k])
  }

  /** A matrix entry has at least one column and an STM row id for each. */
  predicate EntryFits(e: Entry)
  {
    e.item.kind == RmatrixParam ==> 0 < e.item.rowLength <= |e.owner.stmRowIds|
  }

  /** The lengths of the entries in state-map order. */
  function OrderedLengths(entries: seq<Entry>, order: seq<nat>): (l: seq<int>)
    requires forall k :: 0 <= k < |order| ==> order[k] < |entries|
    ensures |l| == |order| && forall i :: 0 <= i < |order| ==> l[i] == entries[order[i]].item.size
  {
    seq(|order|, i requires 0 <= i < |order| => entries[order[i]].item.size)
  }

  /** The state map: item i is built from the entry order[i] with the running
      sub-element counter. */
  function StateMapOf(entries: seq<Entry>, order: seq<nat>): (m: seq<StateItem>)
    requires EntriesWellFormed(entries)
    requires forall k :: 0 <= k < |order| ==> order[k] < |entries|
  {
    StateMapUpTo(entries, order, |order|)
  }

  /** The first n items of the state map. */
  function StateMapUpTo(entries: seq<Entry>, order: seq<nat>, n: nat): (m: seq<StateItem>)
    requires EntriesWellFormed(entries)
    requires forall k :: 0 <= k < |order| ==> order[k] < |entries|
    requires n <= |order|
    ensures |m| == n
  {
    if n == 0 then []
    else StateMapUpTo(entries, order, n - 1) +
           [MakeItem(entries[order[n - 1]], Counter(OrderedLengths(entries, order), n - 1))]
  }

  /** Item i of the state map is entry order[i], numbered by the running
      sub-element counter. */
  lemma {:induction false} StateMapAt(entries: seq<Entry>, order: seq<nat>, n: nat, i: nat)
    requires EntriesWellFormed(entries)
    requires forall k :: 0 <= k < |order| ==> order[k] < |entries|
    requires i < n <= |order|
    ensures StateMapUpTo(entries, order, n)[i] ==
              MakeItem(entries[order[i]], Counter(OrderedLengths(entries, order), i))
    decreases n
  {
    if i < n - 1 {
      StateMapAt(entries, order, n - 1, i);
    }
  }

  /** The STM row map: for every first-row entry of the orbit STM, the STM
      row id of its column and its owner. */
  function StmRows(items: seq<StateItem>, stmId: int): seq<(int, SpaceObject)>
    requires StateMapColumnsFitItems(items)
  {
    if items == [] then []
    else
      var it := items[|items| - 1];
      StmRows(items[..|items| - 1], stmId) +
        (if it.elementID == stmId && it.rowIndex == Some(0) && it.colIndex.Some?
         then [(it.owner.stmRowIds[it.colIndex.value], it.owner)] else [])
  }

  /** The second loop of SortVector: walk the ordering, keep the running
      sub-element counter, and collect the state map and the STM row map. */
  method BuildStateMap(entries: seq<Entry>, order: seq<nat>, stmId: int)
    returns (items: seq<StateItem>, stmRows: seq<(int, SpaceObject)>)
    requires EntriesWellFormed(entries)
    requires forall k :: 0 <= k < |order| ==> order[k] < |entries|
    ensures items == StateMapOf(entries, order)
    ensures StateMapColumnsFitItems(items) && stmRows == StmRows(items, stmId)
  {
    items := [];
    stmRows := [];
    var val := 0;
    var i := 0;
    while i < |order|
      invariant 0 <= i <= |order|
      invariant items == StateMapUpTo(entries, order, i)
      invariant val == NextCounterBase(OrderedLengths(entries, order), i)
      invariant StateMapColumnsFitItems(items) && stmRows == StmRows(items, stmId)
    {
      var it;
      it, val, stmRows := NextStateItem(entries, order, stmId, i, val, items, stmRows);
      items := items + [it];
      i := i + 1;
    }
  }

  /** The value `val` holds before position i of the state map is numbered. */
  function NextCounterBase(lengths: seq<int>, i: nat): int
    requires i <= |lengths|
  {
    if i > 0 && Counter(lengths, i - 1) != lengths[i - 1] then Counter(lengths, i - 1) else 0
  }

  /** One pass of the state-map loop: number entry order[i], add its STM
      row when it starts a row of the orbit STM, and restart the counter
      at the end of the element. */
  method NextStateItem(entries: seq<Entry>, order: seq<nat>, stmId: int, i: nat, val: int,
                       ghost items: seq<StateItem>, stmRows: seq<(int, SpaceObject)>)
    returns (it: StateItem, val': int, stmRows': seq<(int, SpaceObject)>)
    requires EntriesWellFormed(entries)
    requires forall k :: 0 <= k < |order| ==> order[k] < |entries|
    requires i < |order| && items == StateMapUpTo(entries, order, i)
    requires val == NextCounterBase(OrderedLengths(entries, order), i)
    requires StateMapColumnsFitItems(items) && stmRows == StmRows(items, stmId)
    ensures items + [it] == StateMapUpTo(entries, order, i + 1)
    ensures val' == NextCounterBase(OrderedLengths(entries, order), i + 1)
    ensures StateMapColumnsFitItems(items + [it]) && stmRows' == StmRows(items + [it], stmId)
  {
    ghost var lengths := OrderedLengths(entries, order);
    var e := entries[order[i]];
    val' := val + 1;
    assert val' == Counter(lengths, i);
    it := MakeItem(e, val');
    assert StateMapUpTo(entries, order, i + 1) == items + [it];
    assert EntryFits(e);
    StmRowsAppend(items, it, stmId);
    stmRows' := stmRows;
    if it.elementID == stmId && it.rowIndex == Some(0) && it.colIndex.Some? {
      stmRows' := stmRows' + [(e.owner.stmRowIds[it.colIndex.value], e.owner)];
    }
    if val' == e.item.size {
      val' := 0;
    }
  }

  /** The STM row map of a longer state map. */
  lemma StmRowsAppend(items: seq<StateItem>, it: StateItem, stmId: int)
    requires StateMapColumnsFitItems(items)
    requires it.colIndex.Some? ==> 0 <= it.colIndex.value < |it.owner.stmRowIds|
    ensures StateMapColumnsFitItems(items + [it])
    ensures StmRows(items + [it], stmId) == StmRows(items, stmId) +
              (if it.elementID == stmId && it.rowIndex == Some(0) && it.colIndex.Some?
               then [(it.owner.stmRowIds[it.colIndex.value], it.owner)] else [])
  {
    assert forall k :: 0 <= k < |items| ==> (items + [it])[k] == items[k];
    assert (items + [it])[|items|] == it;
    assert (items + [it])[..|items|] == items;
  }

  /** Column indices of a state map fit the objects' STM row tables. */
  predicate StateMapColumnsFitItems(items: seq<StateItem>)
  {
    forall i :: 0 <= i < |items| ==> items[i].colIndex.Some? ==>
      0 <= items[i].colIndex.value < |items[i].owner.stmRowIds|
  }

  /** The STM row ids of an STM row map. */
  function RowIds(rows: seq<(int, SpaceObject)>): (r: seq<int>)
    ensures |r| == |rows| && forall i :: 0 <= i < |rows| ==> r[i] == rows[i].0
  {
    seq(|rows|, i requires 0 <= i < |rows| => rows[i].0)
  }

  /** The owners of an STM row map. */
  function RowObjects(rows: seq<(int, SpaceObject)>): (r: seq<SpaceObject>)
    ensures |r| == |rows| && forall i :: 0 <= i < |rows| ==> r[i] == rows[i].1
  {
    seq(|rows|, i requires 0 <= i < |rows| => rows[i].1)
  }

  // ---------------------------------------------------------------------
  // Epoch matching and matrix symmetrization

  /** Spacecraft epochs this close are taken as identical. */
  const IdenticalTimeTolerance: real := 0.00000000005

  /** The difference the check compares with the tolerance: in seconds for
      objects with precision time, in days otherwise. */
  function EpochGap(first: real, other: real, hasPrecisionTime: bool): real
  {
    if hasPrecisionTime then Abs(first - other) * 86400.0 else Abs(first - other)
  }

  /** Every epoch lies within the tolerance of the first one. */
  predicate EpochsMatch(epochs: seq<real>, hasPrecisionTime: bool)
  {
    |epochs| <= 1 ||
    forall i :: 1 <= i < |epochs| ==> EpochGap(epochs[0], epochs[i], hasPrecisionTime) <= IdenticalTimeTolerance
  }

  /** Matching epochs are pairwise within twice the tolerance (in days). */
  lemma EpochsMatchPairwise(epochs: seq<real>, hasPrecisionTime: bool, i: nat, j: nat)
    requires EpochsMatch(epochs, hasPrecisionTime) && i < |epochs| && j < |epochs|
    ensures Abs(epochs[i] - epochs[j]) <= 2.0 * IdenticalTimeTolerance
  {
    if i > 0 {
      assert EpochGap(epochs[0], epochs[i], hasPrecisionTime) <= IdenticalTimeTolerance;
    }
    if j > 0 {
      assert EpochGap(epochs[0], epochs[j], hasPrecisionTime) <= IdenticalTimeTolerance;
    }
  }

  /** The precision-time check, in seconds, is the stricter one: epochs that
      pass it also pass the check in days. */
  lemma PrecisionCheckIsStricter(epochs: seq<real>)
    requires EpochsMatch(epochs, true)
    ensures EpochsMatch(epochs, false)
  {
    if |epochs| > 1 {
      forall i | 1 <= i < |epochs|
        ensures EpochGap(epochs[0], epochs[i], false) <= IdenticalTimeTolerance
      {
        assert EpochGap(epochs[0], epochs[i], true) <= IdenticalTimeTolerance;
      }
    }
  }

  /** Symmetrize: a non-square matrix is refused; otherwise every pair of
      mirrored entries becomes their average, in place, and the diagonal is
      kept. */
  method Symmetrize(mat: array2<real>) returns (res: Outcome)
    modifies mat
    ensures res.Pass? <==> mat.Length0 == mat.Length1
    ensures res.Pass? ==> MatrixOf(mat) == WithSymmetrizedBlock(old(MatrixOf(mat)), 0, old(MatrixOf(mat)))
    ensures res.Fail? ==> MatrixOf(mat) == old(MatrixOf(mat))
  {
    var size := mat.Length0;
    if size != mat.Length1 {
      return Fail("Cannot symmetrize non-square matrices");
    }
    ghost var m0 := MatrixOf(mat);
    var i := 0;
    while i < size
      invariant 0 <= i <= size
      invariant forall r, c :: 0 <= r < size && 0 <= c < size ==>
                  mat[r, c] == (if Averaged(r, c, i, i) then SymValue(m0, r, c) else m0[r][c])
    {
      AverageRow(mat, i, m0);
      i := i + 1;
    }
    forall r, c | 0 <= r < size && 0 <= c < size
      ensures MatrixOf(mat)[r][c] == WithSymmetrizedBlock(m0, 0, m0)[r][c]
    {
      assert WithSymmetrizedBlock(m0, 0, m0)[r][c] == SymValue(m0, r, c);
    }
    MatrixExt(MatrixOf(mat), WithSymmetrizedBlock(m0, 0, m0), size, size);
    res := Pass;
  }

  /** The inner loop of Symmetrize: average row i with column i to the
      right of the diagonal. */
  method AverageRow(mat: array2<real>, i: nat, ghost m0: Matrix)
    requires mat.Length0 == mat.Length1 == |m0| && IsSquare(m0) && i < |m0|
    requires forall r, c :: 0 <= r < |m0| && 0 <= c < |m0| ==>
               mat[r, c] == (if Averaged(r, c, i, i) then SymValue(m0, r, c) else m0[r][c])
    modifies mat
    ensures forall r, c :: 0 <= r < |m0| && 0 <= c < |m0| ==>
              mat[r, c] == (if Averaged(r, c, i + 1, i + 1) then SymValue(m0, r, c) else m0[r][c])
  {
    var size := mat.Length0;
    var j := i + 1;
    while j < size
      invariant i + 1 <= j <= size
      invariant forall r, c :: 0 <= r < size && 0 <= c < size ==>
                  mat[r, c] == (if Averaged(r, c, i, j) then SymValue(m0, r, c) else m0[r][c])
    {
      var a := mat[i, j];
      var b := mat[j, i];
      var v := 0.5 * (a + b);
      assert v == SymValue(m0, i, j) == SymValue(m0, j, i);
      mat[i, j] := v;
      mat[j, i] := mat[i, j];
      j := j + 1;
    }
  }

  /** The entries the Symmetrize loops have averaged once row i has been
      reached and its columns before j are done. */
  predicate Averaged(r: int, c: int, i: int, j: int)
  {
    r != c && (r < i || c < i || (r == i && c < j) || (c == i && r < j))
  }

  /** After Symmetrize the matrix is symmetric and keeps its diagonal. */
  lemma SymmetrizeResult(m: Matrix)
    requires IsSquare(m)
    ensures IsSymmetric(WithSymmetrizedBlock(m, 0, m))
    ensures forall i :: 0 <= i < |m| ==> WithSymmetrizedBlock(m, 0, m)[i][i] == m[i][i]
  {
    var w := WithSymmetrizedBlock(m, 0, m);
    SymmetrizedBlockIsSymmetric(m, 0, m);
    SymmetrizedBlockKeepsDiagonal(m, 0, m);
    assert SubBlock(w, 0, |m|) == w by {
      forall r, c | 0 <= r < |m| && 0 <= c < |m|
        ensures SubBlock(w, 0, |m|)[r][c] == w[r][c]
      {
      }
      MatrixExt(SubBlock(w, 0, |m|), w, |m|, |m|);
    }
  }

  // ---------------------------------------------------------------------
  // The manager

  class PropagationStateManager {
    var objects: seq<SpaceObject>
    var epochIDs: seq<int>
    /** The property list of each managed object. */
    var elements: map<SpaceObject, seq<string>>
    var current: Option<SpaceObject>
    var stateSize: int
    var stateMap: seq<StateItem>
    var stmRowMapID: seq<int>
    var stmRowMapObj: seq<SpaceObject>

    /** One epoch id per object, each object once with its property list,
        and the current object among them. */
    ghost predicate Valid()
      reads this
    {
      && |epochIDs| == |objects|
      && NoDuplicates(objects)
      && (forall o :: o in elements <==> o in objects)
      && (current.Some? ==> current.value in objects)
      && |stmRowMapID| == |stmRowMapObj|
    }

    /** An empty manager. */
    constructor ()
      ensures Valid()
      ensures objects == [] && epochIDs == [] && elements == map[] && current.None?
      ensures stateSize == 0 && stateMap == [] && stmRowMapID == [] && stmRowMapObj == []
    {
      objects := [];
      epochIDs := [];
      elements := map[];
      current := None;
      stateSize := 0;
      stateMap := [];
      stmRowMapID := [];
      stmRowMapObj := [];
    }

    /** SetObject: an object already managed is refused with no change;
        otherwise it is appended with its epoch id, becomes current, and
        starts with its default property list. */
    method SetObject(obj: SpaceObject) returns (added: bool)
      requires Valid()
      modifies this
      ensures Valid()
      ensures added <==> obj !in old(objects)
      ensures added ==> && objects == old(objects) + [obj]
                        && epochIDs == old(epochIDs) + [EpochIdOf(obj)]
                        && elements == old(elements)[obj := obj.defaultProps]
                        && current == Some(obj)
      ensures !added ==> objects == old(objects) && epochIDs == old(epochIDs) &&
                         elements == old(elements) && current == old(current)
      ensures stateSize == old(stateSize) && stateMap == old(stateMap)
      ensures stmRowMapID == old(stmRowMapID) && stmRowMapObj == old(stmRowMapObj)
    {
      if obj in objects {
        return false;
      }
      objects := objects + [obj];
      epochIDs := epochIDs + [EpochIdOf(obj)];
      current := Some(obj);
      elements := elements[obj := obj.defaultProps];
      added := true;
    }

    /** RemoveObject: the search loop removes the first match with its epoch
        id and property list; the first remaining object, if any, becomes
        current. */
    method RemoveObject(obj: SpaceObject) returns (removed: bool)
      requires Valid()
      modifies this
      ensures Valid()
      ensures removed <==> obj in old(objects)
      ensures removed ==>
                var i := FirstIndex(old(objects), obj);
                && objects == RemoveAt(old(objects), i)
                && epochIDs == RemoveAt(old(epochIDs), i)
                && elements == old(elements) - {obj}
                && current == (if objects == [] then None else Some(objects[0]))
      ensures !removed ==> objects == old(objects) && epochIDs == old(epochIDs) &&
                           elements == old(elements) && current == old(current)
      ensures stateSize == old(stateSize) && stateMap == old(stateMap)
      ensures stmRowMapID == old(stmRowMapID) && stmRowMapObj == old(stmRowMapObj)
    {
      var i := IndexOfObject(objects, obj);
      if i == |objects| {
        return false;
      }
      RemovalKeepsMembership(objects, elements, i);
      objects := RemoveAt(objects, i);
      elements := elements - {obj};
      epochIDs := RemoveAt(epochIDs, i);
      current := if |objects| > 0 then Some(objects[0]) else None;
      removed := true;
    }

    /** The part the three SetProperty overloads share: refuse an unknown
        property, otherwise add it to the object's list unless present. */
    method AddProperty(obj: SpaceObject, propName: string) returns (res: Result<bool>)
      requires Valid() && obj in objects
      modifies this
      ensures Valid()
      ensures res.Ok? <==> propName in obj.items
      ensures res.Ok? ==> res.value && elements == old(elements)[obj := AddIfAbsent(old(elements)[obj], propName)]
      ensures res.Err? ==> elements == old(elements)
      ensures objects == old(objects) && epochIDs == old(epochIDs) && current == old(current)
      ensures stateSize == old(stateSize) && stateMap == old(stateMap)
      ensures stmRowMapID == old(stmRowMapID) && stmRowMapObj == old(stmRowMapObj)
    {
      if propName !in obj.items {
        return Err(propName + " is not a known propagation parameter on " + obj.name);
      }
      elements := elements[obj := AddIfAbsent(elements[obj], propName)];
      res := Ok(true);
    }

    /** SetProperty(propName) for the current object: false with no current
        object; MassFlow without a tank gets its own error. */
    method SetProperty(propName: string) returns (res: Result<bool>)
      requires Valid()
      modifies this
      ensures Valid()
      ensures old(current).None? ==> res == Ok(false) && elements == old(elements)
      ensures old(current).Some? ==> (res.Ok? <==> propName in old(current).value.items)
      ensures old(current).Some? && res.Ok? ==>
                res.value && elements == old(elements)[old(current).value := AddIfAbsent(old(elements)[old(current).value], propName)]
      ensures old(current).Some? && res.Err? ==> elements == old(elements)
      ensures old(current).Some? && res.Err? ==>
                (propName == "MassFlow" ==> res.msg == "No tank is present on " + old(current).value.name +
                                                       " for modeling of propulsion system mass flow.")
      ensures objects == old(objects) && epochIDs == old(epochIDs) && current == old(current)
      ensures stateSize == old(stateSize) && stateMap == old(stateMap)
      ensures stmRowMapID == old(stmRowMapID) && stmRowMapObj == old(stmRowMapObj)
    {
      if current.None? {
        return Ok(false);
      }
      var obj := current.value;
      if propName !in obj.items && propName == "MassFlow" {
        return Err("No tank is present on " + obj.name + " for modeling of propulsion system mass flow.");
      }
      res := AddProperty(obj, propName);
    }

    /** SetProperty(propName, index): the index must name a managed object. */
    method SetPropertyAt(propName: string, index: int) returns (res: Result<bool>)
      requires Valid()
      modifies this
      ensures Valid()
      ensures res.Ok? <==> 0 <= index < |old(objects)| && propName in old(objects)[index].items
      ensures res.Ok? ==> res.value
      ensures res.Ok? ==>
                elements == old(elements)[old(objects)[index] := AddIfAbsent(old(elements)[old(objects)[index]], propName)]
      ensures res.Err? ==> elements == old(elements)
      ensures objects == old(objects) && epochIDs == old(epochIDs) && current == old(current)
      ensures stateSize == old(stateSize) && stateMap == old(stateMap)
      ensures stmRowMapID == old(stmRowMapID) && stmRowMapObj == old(stmRowMapObj)
    {
      if index < 0 || index >= |objects| {
        return Err("Index out of bounds specifying a prop object in a propagation state manager\n");
      }
      res := AddProperty(objects[index], propName);
    }

    /** SetProperty(propName, forObject): the object must be managed. */
    method SetPropertyFor(propName: string, forObject: SpaceObject) returns (res: Result<bool>)
      requires Valid()
      modifies this
      ensures Valid()
      ensures res.Ok? <==> forObject in old(objects) && propName in forObject.items
      ensures res.Ok? ==> res.value
      ensures res.Ok? ==>
                elements == old(elements)[forObject := AddIfAbsent(old(elements)[forObject], propName)]
      ensures res.Err? ==> elements == old(elements)
      ensures objects == old(objects) && epochIDs == old(epochIDs) && current == old(current)
      ensures stateSize == old(stateSize) && stateMap == old(stateMap)
      ensures stmRowMapID == old(stmRowMapID) && stmRowMapObj == old(stmRowMapObj)
    {
      if forObject !in objects {
        return Err("Prop object " + forObject.name + " not found in a propagation state manager\n");
      }
      res := AddProperty(forObject, propName);
    }

    /** ObjectEpochsMatch, with the objects' epochs (read through their
        epoch ids) as input. */
    method ObjectEpochsMatch(epochs: seq<real>, hasPrecisionTime: bool) returns (r: bool)
      requires |epochs| == |objects|
      ensures r <==> EpochsMatch(epochs, hasPrecisionTime)
    {
      r := true;
      if |epochs| > 1 {
        var first := epochs[0];
        var i := 1;
        while i < |epochs|
          invariant 1 <= i <= |epochs|
          invariant r <==> forall k :: 1 <= k < i ==> EpochGap(first, epochs[k], hasPrecisionTime) <= IdenticalTimeTolerance
        {
          var dt := if hasPrecisionTime then Abs(first - epochs[i]) * 86400.0 else Abs(first - epochs[i]);
          if dt > IdenticalTimeTolerance {
            r := false;
          }
          i := i + 1;
        }
      }
    }

    /** GetSTMIndex: the first STM row whose id matches and whose object
        matches (any object when obj is None), or -1. */
    method GetSTMIndex(forParameterID: int, obj: Option<SpaceObject>) returns (r: int)
      requires Valid()
      ensures -1 <= r < |stmRowMapID|
      ensures r >= 0 ==> stmRowMapID[r] == forParameterID && (obj.None? || stmRowMapObj[r] == obj.value)
      ensures forall i :: 0 <= i < |stmRowMapID| && (r < 0 || i < r) ==>
                !(stmRowMapID[i] == forParameterID && (obj.None? || stmRowMapObj[i] == obj.value))
    {
      r := -1;
      var i := 0;
      while i < |stmRowMapID|
        invariant 0 <= i <= |stmRowMapID|
        invariant forall k :: 0 <= k < i ==>
                    !(stmRowMapID[k] == forParameterID && (obj.None? || stmRowMapObj[k] == obj.value))
      {
        if stmRowMapID[i] == forParameterID && (obj.None? || stmRowMapObj[i] == obj.value) {
          return i;
        }
        i := i + 1;
      }
    }

    /** SortVector: flatten every object's properties into state entries
        (size copies each), order them stably by element id, and build the
        state map and the STM row map. An unknown property or a size <= 0
        fails. The id of the orbit STM element is a parameter. */
    method SortVector(stmId: int) returns (res: Result<int>)
      requires Valid() && forall o :: o in objects ==> WellFormed(o)
      modifies this
      ensures Valid()
      ensures objects == old(objects) && epochIDs == old(epochIDs) && elements == old(elements)
      ensures var layout := LayoutOf(objects, elements, stmId);
              && (res.Ok? <==> layout.Ok?)
              && (res.Err? ==> res.msg == layout.msg)
              && (res.Ok? ==>
                    && res.value == stateSize == layout.value.size
                    && stateMap == layout.value.stateMap
                    && stmRowMapID == layout.value.stmRowIds
                    && stmRowMapObj == layout.value.stmRowObjects)
      ensures res.Err? ==> stateSize == old(stateSize) && stateMap == old(stateMap) &&
                           stmRowMapID == old(stmRowMapID) && stmRowMapObj == old(stmRowMapObj)
      ensures res.Ok? && objects != [] ==> current == Some(objects[|objects| - 1])
      ensures res.Ok? && objects == [] ==> current == old(current)
    {
      var layout, last := ComputeLayout(objects, elements, current, stmId);
      current := last;
      if layout.Err? {
        return Err(layout.msg);
      }
      stateSize := layout.value.size;
      stateMap := layout.value.stateMap;
      stmRowMapID := layout.value.stmRowIds;
      stmRowMapObj := layout.value.stmRowObjects;
      res := Ok(stateSize);
    }
  }

  /** The layout SortVector computes: the state size, the state map and the
      STM row map (row ids and owners). */
  datatype Layout = Layout(size: nat, stateMap: seq<StateItem>, stmRowIds: seq<int>, stmRowObjects: seq<SpaceObject>)

  /** The layout of the objects' property lists, or the first error. */
  function LayoutOf(objs: seq<SpaceObject>, elements: map<SpaceObject, seq<string>>, stmId: int): Result<Layout>
    requires forall o :: o in objs ==> o in elements && WellFormed(o)
  {
    match AllEntries(objs, elements)
    case Err(m) => Err(m)
    case Ok(all) =>
      EntriesOfWellFormed(objs, elements);
      var order := OrderOf(Ids(all));
      StateMapFits(all, order, |order|);
      var rows := StmRows(StateMapOf(all, order), stmId);
      Ok(Layout(|all|, StateMapOf(all, order), RowIds(rows), RowObjects(rows)))
  }

  /** The state map fits the owners' STM row tables. */
  lemma {:induction false} StateMapFits(entries: seq<Entry>, order: seq<nat>, n: nat)
    requires EntriesWellFormed(entries)
    requires forall k :: 0 <= k < |order| ==> order[k] < |entries|
    requires n <= |order|
    ensures StateMapColumnsFitItems(StateMapUpTo(entries, order, n))
    decreases n
  {
    if n > 0 {
      StateMapFits(entries, order, n - 1);
      assert EntryFits(entries[order[n - 1]]);
      var prev := StateMapUpTo(entries, order, n - 1);
      var m := StateMapUpTo(entries, order, n);
      assert forall k :: 0 <= k < n - 1 ==> m[k] == prev[k];
    }
  }

  /** Every property listed for every object is one the object knows, with
      a positive size. */
  predicate AllPropertiesValid(objs: seq<SpaceObject>, elements: map<SpaceObject, seq<string>>)
    requires forall o :: o in objs ==> o in elements
  {
    forall i, j :: 0 <= i < |objs| && 0 <= j < |elements[objs[i]]| ==>
      elements[objs[i]][j] in objs[i].items && objs[i].items[elements[objs[i]][j]].size > 0
  }

  /** The state size each object contributes: the sum of its property sizes. */
  function ObjectSizes(objs: seq<SpaceObject>, elements: map<SpaceObject, seq<string>>): (r: seq<int>)
    requires forall o :: o in objs ==> o in elements
    ensures |r| == |objs|
    ensures forall i :: 0 <= i < |objs| ==> r[i] == Sum(PropSizes(objs[i], elements[objs[i]]))
  {
    seq(|objs|, i requires 0 <= i < |objs| => Sum(PropSizes(objs[i], elements[objs[i]])))
  }

  /** Collecting the entries of all objects fails exactly when some listed
      property is unknown or has size <= 0; otherwise there is one entry per
      unit of size over all objects. */
  lemma {:induction false} AllEntriesMeaning(objs: seq<SpaceObject>, elements: map<SpaceObject, seq<string>>)
    requires forall o :: o in objs ==> o in elements
    ensures AllEntries(objs, elements).Ok? <==> AllPropertiesValid(objs, elements)
    ensures AllEntries(objs, elements).Ok? ==>
              |AllEntries(objs, elements).value| == Sum(ObjectSizes(objs, elements))
    decreases |objs|
  {
    if objs != [] {
      var n := |objs|;
      var init := objs[..n - 1];
      var last := objs[n - 1];
      AllEntriesMeaning(init, elements);
      ObjectEntriesMeaning(last, elements[last]);
      assert ObjectSizes(objs, elements) ==
               ObjectSizes(init, elements) + [Sum(PropSizes(last, elements[last]))];
      SumAppend(ObjectSizes(init, elements), Sum(PropSizes(last, elements[last])));
      AllValidSplit(objs, elements);
    }
  }

  /** The property lists of all objects are valid exactly when those of all
      but the last are, and the last object's is. */
  lemma AllValidSplit(objs: seq<SpaceObject>, elements: map<SpaceObject, seq<string>>)
    requires objs != [] && forall o :: o in objs ==> o in elements
    ensures var last := objs[|objs| - 1];
            AllPropertiesValid(objs, elements) <==>
              && AllPropertiesValid(objs[..|objs| - 1], elements)
              && forall j :: 0 <= j < |elements[last]| ==>
                   elements[last][j] in last.items && last.items[elements[last][j]].size > 0
  {
    var n := |objs|;
    var init := objs[..n - 1];
    assert forall i :: 0 <= i < n - 1 ==> init[i] == objs[i];
  }

  /** SortVector fails exactly when some listed property is unknown or has
      size <= 0; otherwise the state size is the sum of all property sizes,
      with one state-map item per state entry. */
  lemma LayoutMeaning(objs: seq<SpaceObject>, elements: map<SpaceObject, seq<string>>, stmId: int)
    requires forall o :: o in objs ==> o in elements && WellFormed(o)
    ensures LayoutOf(objs, elements, stmId).Ok? <==> AllPropertiesValid(objs, elements)
    ensures LayoutOf(objs, elements, stmId).Ok? ==>
              && LayoutOf(objs, elements, stmId).value.size == Sum(ObjectSizes(objs, elements))
              && |LayoutOf(objs, elements, stmId).value.stateMap| == LayoutOf(objs, elements, stmId).value.size
  {
    AllEntriesMeaning(objs, elements);
  }

  /** A state-map item describes the entry: same owner, property, element
      id and length. */
  predicate Describes(it: StateItem, e: Entry)
  {
    it.owner == e.owner && it.elementName == e.property && it.elementID == e.item.id && it.length == e.item.size
  }

  /** The state map lists every entry exactly once, reordered by a stable
      sort on the element id: ids never decrease along the map, and entries
      with equal ids keep the order in which the objects and their
      properties list them. */
  lemma LayoutIsStableSort(objs: seq<SpaceObject>, elements: map<SpaceObject, seq<string>>, stmId: int)
    requires forall o :: o in objs ==> o in elements && WellFormed(o)
    requires AllEntries(objs, elements).Ok?
    ensures LayoutOf(objs, elements, stmId).Ok?
    ensures var all := AllEntries(objs, elements).value;
            var o := OrderOf(Ids(all));
            var m := LayoutOf(objs, elements, stmId).value.stateMap;
            && IsIndexPermutation(o, |all|) && SortedStably(o, Ids(all))
            && |m| == |all|
            && forall i :: 0 <= i < |m| ==> Describes(m[i], all[o[i]])
    ensures var m := LayoutOf(objs, elements, stmId).value.stateMap;
            forall p, q :: 0 <= p < q < |m| ==> m[p].elementID <= m[q].elementID
  {
    var all := AllEntries(objs, elements).value;
    EntriesOfWellFormed(objs, elements);
    OrderIsStableSort(Ids(all));
    StateMapDescribes(all, OrderOf(Ids(all)));
    StateMapSorted(all, OrderOf(Ids(all)));
  }

  /** Item i of the state map describes entry order[i]. */
  lemma StateMapDescribes(entries: seq<Entry>, order: seq<nat>)
    requires EntriesWellFormed(entries)
    requires forall k :: 0 <= k < |order| ==> order[k] < |entries|
    ensures forall i :: 0 <= i < |order| ==> Describes(StateMapOf(entries, order)[i], entries[order[i]])
  {
    forall i | 0 <= i < |order|
      ensures Describes(StateMapOf(entries, order)[i], entries[order[i]])
    {
      StateMapAt(entries, order, |order|, i);
    }
  }

  /** A state map built along a sorted order has non-decreasing element ids. */
  lemma StateMapSorted(entries: seq<Entry>, order: seq<nat>)
    requires EntriesWellFormed(entries)
    requires forall k :: 0 <= k < |order| ==> order[k] < |entries|
    requires SortedStably(order, Ids(entries))
    ensures var m := StateMapOf(entries, order);
            forall p, q :: 0 <= p < q < |m| ==> m[p].elementID <= m[q].elementID
  {
    var m := StateMapOf(entries, order);
    StateMapDescribes(entries, order);
    forall p, q | 0 <= p < q < |m|
      ensures m[p].elementID <= m[q].elementID
    {
      assert Describes(m[p], entries[order[p]]) && Describes(m[q], entries[order[q]]);
    }
  }

  /** Both loops of SortVector, with the object that is current when they
      stop. */
  method ComputeLayout(objs: seq<SpaceObject>, elements: map<SpaceObject, seq<string>>,
                       current: Option<SpaceObject>, stmId: int)
    returns (res: Result<Layout>, last: Option<SpaceObject>)
    requires forall o :: o in objs ==> o in elements && WellFormed(o)
    ensures res == LayoutOf(objs, elements, stmId)
    ensures res.Ok? && objs != [] ==> last == Some(objs[|objs| - 1])
    ensures res.Ok? && objs == [] ==> last == current
    ensures last.Some? ==> last == current || last.value in objs
  {
    var entries, order;
    entries, order, last := CollectEntries(objs, elements, current);
    if entries.Err? {
      res := Err(entries.msg);
      return;
    }
    EntriesOfWellFormed(objs, elements);
    var items, rows := BuildStateMap(entries.value, order, stmId);
    res := Ok(Layout(|entries.value|, items, RowIds(rows), RowObjects(rows)));
  }

  /** The search loop of RemoveObject: the index of the first match, or the
      length of the list when there is none. */
  method IndexOfObject(objs: seq<SpaceObject>, obj: SpaceObject) returns (i: nat)
    ensures i == FirstIndex(objs, obj)
    ensures i < |objs| <==> obj in objs
  {
    i := 0;
    while i < |objs| && objs[i] != obj
      invariant 0 <= i <= |objs|
      invariant forall j :: 0 <= j < i ==> objs[j] != obj
    {
      i := i + 1;
    }
    FirstIndexIs(objs, obj, i);
  }

  /** FirstIndex is the first match. */
  lemma {:induction false} FirstIndexIs(objs: seq<SpaceObject>, obj: SpaceObject, i: nat)
    requires i <= |objs| && forall j :: 0 <= j < i ==> objs[j] != obj
    requires i < |objs| ==> objs[i] == obj
    ensures FirstIndex(objs, obj) == i
    decreases i
  {
    if i > 0 {
      FirstIndexIs(objs[1..], obj, i - 1);
    }
  }

  /** Removing an object and its property list keeps each remaining object
      listed once, with its property list. */
  lemma RemovalKeepsMembership(objs: seq<SpaceObject>, elements: map<SpaceObject, seq<string>>, i: nat)
    requires NoDuplicates(objs) && i < |objs|
    requires forall o :: o in elements <==> o in objs
    ensures NoDuplicates(RemoveAt(objs, i))
    ensures forall o :: o in elements - {objs[i]} <==> o in RemoveAt(objs, i)
  {
    RemoveAtDistinct(objs, i);
  }

  /** The entries of well-formed objects carry their owners' own answers. */
  lemma {:induction false} EntriesOfWellFormed(objs: seq<SpaceObject>, elements: map<SpaceObject, seq<string>>)
    requires forall o :: o in objs ==> o in elements && WellFormed(o)
    ensures AllEntries(objs, elements).Ok? ==> EntriesWellFormed(AllEntries(objs, elements).value)
    decreases |objs|
  {
    if objs != [] {
      var init := objs[..|objs| - 1];
      EntriesOfWellFormed(init, elements);
      var last := objs[|objs| - 1];
      ObjectEntriesWellFormed(last, elements[last]);
    }
  }

  /** The entries of one well-formed object carry its own answers. */
  lemma {:induction false} ObjectEntriesWellFormed(obj: SpaceObject, props: seq<string>)
    requires WellFormed(obj)
    ensures ObjectEntries(obj, props).Ok? ==> EntriesWellFormed(ObjectEntries(obj, props).value)
    decreases |props|
  {
    if props != [] {
      ObjectEntriesWellFormed(obj, props[..|props| - 1]);
    }
  }

  /** The innermost loop of SortVector: append size copies of one entry,
      inserting each new index into the ordering. */
  method CollectProperty(entries: seq<Entry>, order: seq<nat>, e: Entry)
    returns (entries': seq<Entry>, order': seq<nat>)
    requires order == OrderOf(Ids(entries)) && e.item.size > 0
    ensures entries' == entries + seq(e.item.size, _ => e)
    ensures order' == OrderOf(Ids(entries'))
  {
    entries' := entries;
    order' := order;
    var k := 0;
    while k < e.item.size
      invariant 0 <= k <= e.item.size
      invariant entries' == entries + seq(k, _ => e)
      invariant order' == OrderOf(Ids(entries'))
    {
      order' := InsertInOrder(order', Ids(entries') + [e.item.id], |entries'|);
      OrderOfAppend(Ids(entries'), e.item.id);
      IdsAppend(entries', e);
      RepeatStep(entries, e, k);
      entries' := entries' + [e];
      k := k + 1;
    }
  }

  /** The ids of an extended entry list. */
  lemma IdsAppend(entries: seq<Entry>, e: Entry)
    ensures Ids(entries + [e]) == Ids(entries) + [e.item.id]
  {
    assert |Ids(entries + [e])| == |Ids(entries) + [e.item.id]|;
  }

  /** One more copy of e. */
  lemma RepeatStep(entries: seq<Entry>, e: Entry, k: nat)
    ensures entries + seq(k + 1, _ => e) == (entries + seq(k, _ => e)) + [e]
  {
    assert seq(k + 1, _ => e) == seq(k, _ => e) + [e];
  }

  /** The property loop of SortVector for one object: collect the entries of
      each property in turn, failing on the first unknown property or size
      <= 0. */
  method CollectObject(entries: seq<Entry>, order: seq<nat>, obj: SpaceObject, props: seq<string>)
    returns (res: Result<seq<Entry>>, order': seq<nat>)
    requires order == OrderOf(Ids(entries))
    ensures res == ObjectEntries(obj, props)
    ensures res.Ok? ==> order' == OrderOf(Ids(entries + res.value))
  {
    var objEntries: seq<Entry> := [];
    order' := order;
    assert entries + objEntries == entries;
    var j := 0;
    while j < |props|
      invariant 0 <= j <= |props|
      invariant ObjectEntries(obj, props[..j]) == Ok(objEntries)
      invariant order' == OrderOf(Ids(entries + objEntries))
    {
      var prop := props[j];
      if prop !in obj.items {
        res := Err("Unknown state element: " + prop + " on object " + obj.name);
        ObjectEntriesFailsAt(obj, props, j);
        return;
      }
      var item := obj.items[prop];
      if item.size <= 0 {
        res := Err("State element " + prop + " has size set less than or equal to 0; unable to continue.");
        ObjectEntriesFailsAt(obj, props, j);
        return;
      }
      var e := Entry(obj, prop, item);
      var all;
      all, order' := CollectProperty(entries + objEntries, order', e);
      ObjectEntriesGrows(obj, props, j, objEntries);
      AppendAssoc(entries, objEntries, seq(item.size, _ => e));
      objEntries := objEntries + seq(item.size, _ => e);
      j := j + 1;
    }
    assert props[..j] == props;
    res := Ok(objEntries);
  }

  /** A known property with a positive size extends the entries by its
      copies. */
  lemma ObjectEntriesGrows(obj: SpaceObject, props: seq<string>, j: nat, objEntries: seq<Entry>)
    requires j < |props| && ObjectEntries(obj, props[..j]) == Ok(objEntries)
    requires props[j] in obj.items && obj.items[props[j]].size > 0
    ensures ObjectEntries(obj, props[..j + 1]) ==
              Ok(objEntries + seq(obj.items[props[j]].size, _ => Entry(obj, props[j], obj.items[props[j]])))
  {
    ObjectEntriesStep(obj, props, j);
  }

  /** The first failing property decides the result for the whole list. */
  lemma ObjectEntriesFailsAt(obj: SpaceObject, props: seq<string>, j: nat)
    requires j < |props| && ObjectEntries(obj, props[..j]).Ok?
    requires PropEntries(obj, props[j]).Err?
    ensures ObjectEntries(obj, props) == PropEntries(obj, props[j])
  {
    ObjectEntriesStep(obj, props, j);
    ObjectEntriesPrefixErr(obj, props, j + 1);
  }

  /** One more object of the list. */
  lemma AllEntriesStep(objs: seq<SpaceObject>, elements: map<SpaceObject, seq<string>>, q: nat)
    requires forall o :: o in objs ==> o in elements
    requires q < |objs|
    ensures AllEntries(objs[..q + 1], elements) ==
              match AllEntries(objs[..q], elements)
              case Err(m) => Err(m)
              case Ok(e) =>
                match ObjectEntries(objs[q], elements[objs[q]])
                case Err(m) => Err(m)
                case Ok(f) => Ok(e + f)
  {
    assert objs[..q + 1][..q] == objs[..q];
    assert objs[..q + 1][q] == objs[q];
  }

  /** Concatenation is associative. */
  lemma AppendAssoc<T>(a: seq<T>, b: seq<T>, c: seq<T>)
    ensures (a + b) + c == a + (b + c)
  {
  }

  /** One more property of the list. */
  lemma ObjectEntriesStep(obj: SpaceObject, props: seq<string>, j: nat)
    requires j < |props|
    ensures ObjectEntries(obj, props[..j + 1]) ==
              match ObjectEntries(obj, props[..j])
              case Err(m) => Err(m)
              case Ok(e) =>
                match PropEntries(obj, props[j])
                case Err(m) => Err(m)
                case Ok(f) => Ok(e + f)
  {
    assert props[..j + 1][..j] == props[..j];
  }

  /** The object loop of SortVector: each object becomes current in turn and
      contributes its entries; the first failure stops the loop. */
  method CollectEntries(objs: seq<SpaceObject>, elements: map<SpaceObject, seq<string>>, current: Option<SpaceObject>)
    returns (res: Result<seq<Entry>>, order: seq<nat>, last: Option<SpaceObject>)
    requires forall o :: o in objs ==> o in elements
    ensures res == AllEntries(objs, elements)
    ensures res.Ok? ==> order == OrderOf(Ids(res.value))
    ensures res.Ok? && objs != [] ==> last == Some(objs[|objs| - 1])
    ensures res.Ok? && objs == [] ==> last == current
    ensures last.Some? ==> last == current || last.value in objs
  {
    var entries: seq<Entry> := [];
    order := [];
    last := current;
    var q := 0;
    while q < |objs|
      invariant 0 <= q <= |objs|
      invariant AllEntries(objs[..q], elements) == Ok(entries)
      invariant order == OrderOf(Ids(entries))
      invariant q > 0 ==> last == Some(objs[q - 1])
      invariant q == 0 ==> last == current
    {
      var obj := objs[q];
      last := Some(obj);
      var objRes;
      objRes, order := CollectObject(entries, order, obj, elements[obj]);
      AllEntriesStep(objs, elements, q);
      if objRes.Err? {
        res := Err(objRes.msg);
        AllEntriesPrefixErr(objs, elements, q + 1);
        return;
      }
      entries := entries + objRes.value;
      q := q + 1;
    }
    assert objs[..q] == objs;
    res := Ok(entries);
  }

  /** Appending one id extends the ordering by inserting its index. */
  lemma OrderOfAppend(ids: seq<int>, id: int)
    ensures OrderOf(ids + [id]) == InsertAt<nat>(OrderOf(ids), InsertPosition(OrderOf(ids), ids + [id], id), |ids|)
  {
    var full := ids + [id];
    assert full[..|full| - 1] == ids;
  }

  /** Once a prefix of a property list fails, the whole list fails the same way. */
  lemma {:induction false} ObjectEntriesPrefixErr(obj: SpaceObject, props: seq<string>, k: nat)
    requires k <= |props| && ObjectEntries(obj, props[..k]).Err?
    ensures ObjectEntries(obj, props) == ObjectEntries(obj, props[..k])
    decreases |props| - k
  {
    if k < |props| {
      assert props[..k + 1][..k] == props[..k];
      ObjectEntriesPrefixErr(obj, props, k + 1);
    } else {
      assert props[..k] == props;
    }
  }

  /** Once a prefix of the object list fails, the whole collection fails the same way. */
  lemma {:induction false} AllEntriesPrefixErr(objs: seq<SpaceObject>, elements: map<SpaceObject, seq<string>>, k: nat)
    requires forall o :: o in objs ==> o in elements
    requires k <= |objs| && AllEntries(objs[..k], elements).Err?
    ensures AllEntries(objs, elements) == AllEntries(objs[..k], elements)
    decreases |objs| - k
  {
    if k < |objs| {
      assert objs[..k + 1][..k] == objs[..k];
      AllEntriesPrefixErr(objs, elements, k + 1);
    } else {
      assert objs[..k] == objs;
    }
  }
}
