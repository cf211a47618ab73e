/** The per-backend manager of dynamically shaped tensors: it gives a
    tensor memory from the dynamic memory manager when its shape becomes
    known at run time, gives it back when the shape's byte size changes,
    and releases the memory of operands whose last use has executed. */
module DynamicTensors {
  import opened IR

  datatype Layout = NHWC | NCHW | UNKNOWN

  datatype TensorInfo = TensorInfo(shape: Shape, dataType: DataType, dynamic: bool)

  /** One block handed out by the dynamic memory manager; `id` tells
      blocks apart. */
  datatype Allocation = Allocation(id: nat, capacity: int)

  /** What a tensor's buffer points at: nothing, memory the static planner
      placed, or a block of the dynamic memory manager. */
  datatype BufferRef = NoBuffer | StaticBuffer | DynamicBuffer(alloc: Allocation)

  datatype TensorState = TensorState(info: TensorInfo, layout: Layout, buffer: BufferRef)
  {
    /** total_size(): the byte size of the current shape. */
    function Size(): int { TotalSize(info.shape, info.dataType) }
  }

  /** A call into the dynamic memory manager. */
  datatype MemCall = AllocateCall(ind: nat, capacity: int) | DeallocateCall(ind: nat)

  /** No tensor loses its registration or its dynamic flag: nothing in the
      manager ever makes a dynamic tensor static again. */
  predicate DynamicKept(before: map<nat, TensorState>, after: map<nat, TensorState>)
  {
    forall i :: i in before && before[i].info.dynamic ==> i in after && after[i].info.dynamic
  }

  /** The operand indices released by the deallocations in a call log, with
      their multiplicity. */
  function DeallocatedInds(calls: seq<MemCall>): multiset<nat>
  {
    if calls == [] then multiset{}
    else
      var last := calls[|calls| - 1];
      DeallocatedInds(calls[..|calls| - 1]) + (if last.DeallocateCall? then multiset{last.ind} else multiset{})
  }

  predicate OnlyDeallocations(calls: seq<MemCall>)
  {
    forall k :: 0 <= k < |calls| ==> calls[k].DeallocateCall?
  }

  /** Logging one more deallocation adds its operand once. */
  lemma DeallocatedAppend(calls: seq<MemCall>, x: nat, released: set<nat>)
    requires OnlyDeallocations(calls) && DeallocatedInds(calls) == multiset(released)
    requires x !in released
    ensures OnlyDeallocations(calls + [DeallocateCall(x)])
    ensures DeallocatedInds(calls + [DeallocateCall(x)]) == multiset(released + {x})
  {
    assert (calls + [DeallocateCall(x)])[..|calls|] == calls;
  }

  /** planDealloc on the plan table: `x` joins `op`'s set, created when
      absent. */
  function AddPlan(plans: map<nat, set<nat>>, op: nat, x: nat): (r: map<nat, set<nat>>)
    ensures r.Keys == plans.Keys + {op}
    ensures r[op] == (if op in plans then plans[op] else {}) + {x}
    ensures forall o :: o in plans && o != op ==> r[o] == plans[o]
  {
    plans[op := (if op in plans then plans[op] else {}) + {x}]
  }

  /** Planning the same release twice is planning it once. */
  lemma AddPlanIdempotent(plans: map<nat, set<nat>>, op: nat, x: nat)
    ensures AddPlan(AddPlan(plans, op, x), op, x) == AddPlan(plans, op, x)
  {
    var once := AddPlan(plans, op, x);
    assert once[op] + {x} == once[op];
  }

  /** The order in which releases are planned does not matter. */
  lemma AddPlanCommutes(plans: map<nat, set<nat>>, op1: nat, x1: nat, op2: nat, x2: nat)
    ensures AddPlan(AddPlan(plans, op1, x1), op2, x2) == AddPlan(AddPlan(plans, op2, x2), op1, x1)
  {
    var a := AddPlan(AddPlan(plans, op1, x1), op2, x2);
    var b := AddPlan(AddPlan(plans, op2, x2), op1, x1);
    assert a.Keys == b.Keys;
    forall o | o in a.Keys
      ensures a[o] == b[o]
    {
    }
  }

  /** The operands of `planned` that are dynamic: the ones a release
      deallocates. */
  function Released(tensors: map<nat, TensorState>, planned: set<nat>): set<nat>
  {
    set x | x in planned && x in tensors && tensors[x].info.dynamic
  }

  /** The planned operands of `op` that are dynamic: the ones deallocInput
      releases. */
  function DynamicPlanned(tensors: map<nat, TensorState>, plans: map<nat, set<nat>>, op: nat): set<nat>
  {
    if op in plans then Released(tensors, plans[op]) else {}
  }

  /** Every tensor of `released` that holds a dynamic block drops it. */
  function DropBuffers(tensors: map<nat, TensorState>, released: set<nat>): (r: map<nat, TensorState>)
    ensures r.Keys == tensors.Keys
    ensures forall i :: i in tensors ==>
              r[i] == (if i in released && tensors[i].buffer.DynamicBuffer? then tensors[i].(buffer := NoBuffer) else tensors[i])
  {
    map i | i in tensors :: if i in released && tensors[i].buffer.DynamicBuffer? then tensors[i].(buffer := NoBuffer) else tensors[i]
  }

  lemma RemoveOneMore(mem: map<nat, Allocation>, released: set<nat>, x: nat)
    ensures (mem - released) - {x} == mem - (released + {x})
  {
    var a, b := (mem - released) - {x}, mem - (released + {x});
    assert a.Keys == b.Keys;
  }

  /** A tensor that holds a dynamic block holds the live block of its own
      index. */
  predicate ValidState(tensors: map<nat, TensorState>, mem: map<nat, Allocation>)
  {
    forall i :: i in tensors && tensors[i].buffer.DynamicBuffer? ==>
      i in mem && mem[i] == tensors[i].buffer.alloc
  }

  /** Releasing operands and dropping their blocks keeps the state valid. */
  lemma {:induction false} ReleaseKeepsValid(tensors: map<nat, TensorState>, mem: map<nat, Allocation>, released: set<nat>)
    requires ValidState(tensors, mem)
    ensures ValidState(DropBuffers(tensors, released), mem - released)
  {
    var ts := DropBuffers(tensors, released);
    forall i | i in ts && ts[i].buffer.DynamicBuffer?
      ensures i in mem - released && (mem - released)[i] == ts[i].buffer.alloc
    {
      assert i !in released;
    }
  }

  /** Taking one more operand `x` off the to-do set of a release. */
  lemma ReleasedStep(tensors: map<nat, TensorState>, planned: set<nat>, todo: set<nat>, x: nat)
    requires x in todo && todo <= planned
    ensures x !in Released(tensors, planned - todo)
    ensures Released(tensors, planned - (todo - {x}))
              == Released(tensors, planned - todo) + (if x in tensors && tensors[x].info.dynamic then {x} else {})
  {
    var a := Released(tensors, planned - (todo - {x}));
    var b := Released(tensors, planned - todo) + (if x in tensors && tensors[x].info.dynamic then {x} else {});
    forall y | y in a ensures y in b { }
    forall y | y in b ensures y in a { }
  }

  /** One iteration of the release loop keeps the memory table and the
      call log in step with the operands visited so far. */
  lemma ReleaseStepKeeps(tensors: map<nat, TensorState>, planned: set<nat>, todo: set<nat>, x: nat,
                         mem: map<nat, Allocation>, mem': map<nat, Allocation>, log: seq<MemCall>)
    requires x in todo && todo <= planned && x in tensors
    requires mem' == mem - Released(tensors, planned - todo)
    requires OnlyDeallocations(log) && DeallocatedInds(log) == multiset(Released(tensors, planned - todo))
    ensures var dyn := tensors[x].info.dynamic;
            var mem2 := if dyn then mem' - {x} else mem';
            var log2 := if dyn then log + [DeallocateCall(x)] else log;
            && mem2 == mem - Released(tensors, planned - (todo - {x}))
            && OnlyDeallocations(log2)
            && DeallocatedInds(log2) == multiset(Released(tensors, planned - (todo - {x})))
  {
    var released := Released(tensors, planned - todo);
    ReleasedStep(tensors, planned, todo, x);
    if tensors[x].info.dynamic {
      RemoveOneMore(mem, released, x);
      DeallocatedAppend(log, x, released);
    }
  }

  /** The release loop of deallocInput on the memory table: one
      deallocation per dynamic operand of `planned`, in no particular order.
      Reaching an operand that is not registered stops the loop with a
      failure (the registry lookup throws), after the releases already
      done: `done` is the part of `planned` visited before that. */
  method ReleasePlanned(planned: set<nat>, tensors: map<nat, TensorState>, mem: map<nat, Allocation>)
    returns (ok: bool, done: set<nat>, mem': map<nat, Allocation>, log: seq<MemCall>)
    ensures ok <==> planned <= tensors.Keys
    ensures done <= planned && (ok ==> done == planned)
    ensures mem' == mem - Released(tensors, done)
    ensures OnlyDeallocations(log)
    ensures DeallocatedInds(log) == multiset(Released(tensors, done))
  {
    mem', log := mem, [];
    var todo := planned;
    assert planned - todo == {};
    while todo != {}
      invariant todo <= planned
      invariant planned - todo <= tensors.Keys
      invariant mem' == mem - Released(tensors, planned - todo)
      invariant OnlyDeallocations(log)
      invariant DeallocatedInds(log) == multiset(Released(tensors, planned - todo))
      decreases |todo|
    {
      var x :| x in todo;
      if x !in tensors {
        assert x in planned && x !in tensors.Keys;
        return false, planned - todo, mem', log;
      }
      ReleaseStepKeeps(tensors, planned, todo, x, mem, mem', log);
      if tensors[x].info.dynamic {
        mem', log := mem' - {x}, log + [DeallocateCall(x)];
      }
      assert planned - (todo - {x}) == (planned - todo) + {x};
      todo := todo - {x};
    }
    assert planned - todo == planned;
    ok, done := true, planned;
  }

  class DynamicTensorManager {
    /** The tensor registry shared with the backend. */
    var tensors: map<nat, TensorState>
    /** The live blocks of the dynamic memory manager, by operand index. */
    var mem: map<nat, Allocation>
    var nextId: nat
    /** The calls made to the dynamic memory manager, in order. */
    var memCalls: seq<MemCall>
    /** Operation index to the operands whose memory may be released once
        that operation has run. */
    var deallocMap: map<nat, set<nat>>

    predicate Valid()
      reads this
    {
      ValidState(tensors, mem)
    }

    /** A manager over a registry no dynamic block has been given to yet. */
    constructor (registry: map<nat, TensorState>)
      requires forall i :: i in registry ==> !registry[i].buffer.DynamicBuffer?
      ensures Valid()
      ensures tensors == registry && mem == map[] && memCalls == [] && deallocMap == map[]
    {
      tensors := registry;
      mem := map[];
      nextId := 0;
      memCalls := [];
      deallocMap := map[];
    }

    // ---- the dynamic memory manager -----------------------------------------

    /** allocate of the dynamic memory manager: a new block, under a fresh
        id, recorded for the operand. */
    method MemAllocate(ind: nat, capacity: int) returns (a: Allocation)
      modifies this
      ensures a == Allocation(old(nextId), capacity)
      ensures mem == old(mem)[ind := a] && nextId == old(nextId) + 1
      ensures memCalls == old(memCalls) + [AllocateCall(ind, capacity)]
      ensures tensors == old(tensors) && deallocMap == old(deallocMap)
    {
      a := Allocation(nextId, capacity);
      nextId := nextId + 1;
      mem := mem[ind := a];
      memCalls := memCalls + [AllocateCall(ind, capacity)];
    }

    method MemDeallocate(ind: nat)
      modifies this
      ensures mem == old(mem) - {ind} && nextId == old(nextId)
      ensures memCalls == old(memCalls) + [DeallocateCall(ind)]
      ensures tensors == old(tensors) && deallocMap == old(deallocMap)
    {
      mem := mem - {ind};
      memCalls := memCalls + [DeallocateCall(ind)];
    }

    // ---- applyShape -----------------------------------------------------------

    /** applyShape as written. A tensor that was not dynamic gets the shape,
        becomes dynamic and gets a new block sized to the shape (its old
        buffer is not released). A dynamic tensor without a buffer does the
        same. A dynamic tensor with a buffer gets, when the byte size
        changes, one deallocation followed by one allocation; when the byte
        size is unchanged nothing happens, not even the shape update. */
    method ApplyShapeAsWritten(ind: nat, newShape: Shape)
      requires ind in tensors
      modifies this
      ensures DynamicKept(old(tensors), tensors)
      ensures tensors.Keys == old(tensors.Keys) && deallocMap == old(deallocMap)
      ensures forall i :: i in tensors && i != ind ==> tensors[i] == old(tensors[i])
      ensures tensors[ind].info.dynamic && tensors[ind].layout == old(tensors[ind].layout)
      ensures var t := old(tensors[ind]);
              var newSize := TotalSize(newShape, t.info.dataType);
              var a := Allocation(old(nextId), newSize);
              && (!t.info.dynamic || t.buffer.NoBuffer? ==>
                    && memCalls == old(memCalls) + [AllocateCall(ind, newSize)]
                    && mem == old(mem)[ind := a]
                    && tensors[ind] == TensorState(t.info.(shape := newShape, dynamic := true), t.layout, DynamicBuffer(a)))
              && (t.info.dynamic && !t.buffer.NoBuffer? && t.Size() != newSize ==>
                    && memCalls == old(memCalls) + [DeallocateCall(ind), AllocateCall(ind, newSize)]
                    && mem == old(mem)[ind := a]
                    && tensors[ind] == TensorState(t.info.(shape := newShape, dynamic := true), t.layout, DynamicBuffer(a)))
              && (t.info.dynamic && !t.buffer.NoBuffer? && t.Size() == newSize ==>
                    && memCalls == old(memCalls) && mem == old(mem) && nextId == old(nextId)
                    && tensors[ind] == t)
    {
      var t := tensors[ind];
      if !t.info.dynamic || t.buffer.NoBuffer? {
        var info := t.info.(shape := newShape, dynamic := true);
        var a := MemAllocate(ind, TotalSize(newShape, t.info.dataType));
        tensors := tensors[ind := TensorState(info, t.layout, DynamicBuffer(a))];
      } else if t.Size() != TotalSize(newShape, t.info.dataType) {
        MemDeallocate(ind);
        var info := t.info.(shape := newShape, dynamic := true);
        var a := MemAllocate(ind, TotalSize(newShape, t.info.dataType));
        tensors := tensors[ind := TensorState(info, t.layout, DynamicBuffer(a))];
      }
    }

    /** applyShape with the shape always applied: as written, except that a
        dynamic tensor whose byte size is unchanged keeps its block but
        takes the new shape. It keeps the manager valid. */
    method ApplyShape(ind: nat, newShape: Shape)
      requires ind in tensors
      modifies this
      ensures DynamicKept(old(tensors), tensors)
      ensures old(Valid()) ==> Valid()
      ensures tensors.Keys == old(tensors.Keys) && deallocMap == old(deallocMap)
      ensures forall i :: i in tensors && i != ind ==> tensors[i] == old(tensors[i])
      ensures tensors[ind].info == old(tensors[ind].info).(shape := newShape, dynamic := true)
      ensures tensors[ind].layout == old(tensors[ind].layout)
      ensures var t := old(tensors[ind]);
              var newSize := TotalSize(newShape, t.info.dataType);
              var a := Allocation(old(nextId), newSize);
              && (!t.info.dynamic || t.buffer.NoBuffer? ==>
                    && memCalls == old(memCalls) + [AllocateCall(ind, newSize)]
                    && mem == old(mem)[ind := a]
                    && tensors[ind].buffer == DynamicBuffer(a))
              && (t.info.dynamic && !t.buffer.NoBuffer? && t.Size() != newSize ==>
                    && memCalls == old(memCalls) + [DeallocateCall(ind), AllocateCall(ind, newSize)]
                    && mem == old(mem)[ind := a]
                    && tensors[ind].buffer == DynamicBuffer(a))
              && (t.info.dynamic && !t.buffer.NoBuffer? && t.Size() == newSize ==>
                    && memCalls == old(memCalls) && mem == old(mem)
                    && tensors[ind].buffer == t.buffer)
    {
      var t := tensors[ind];
      var info := t.info.(shape := newShape, dynamic := true);
      if !t.info.dynamic || t.buffer.NoBuffer? {
        var a := MemAllocate(ind, TotalSize(newShape, t.info.dataType));
        tensors := tensors[ind := TensorState(info, t.layout, DynamicBuffer(a))];
      } else if t.Size() != TotalSize(newShape, t.info.dataType) {
        MemDeallocate(ind);
        var a := MemAllocate(ind, TotalSize(newShape, t.info.dataType));
        tensors := tensors[ind := TensorState(info, t.layout, DynamicBuffer(a))];
      } else {
        tensors := tensors[ind := t.(info := info)];
      }
    }

    // ---- allocate (deprecated), buildTensor, changeShape ----------------------

    /** allocate: like applyShape on a tensor with or without a buffer, but
        the dynamic flag is left as it is. */
    method Allocate(ind: nat, newShape: Shape)
      requires ind in tensors
      modifies this
      ensures DynamicKept(old(tensors), tensors)
      ensures old(Valid()) ==> Valid()
      ensures tensors.Keys == old(tensors.Keys) && deallocMap == old(deallocMap)
      ensures forall i :: i in tensors && i != ind ==> tensors[i] == old(tensors[i])
      ensures tensors[ind].layout == old(tensors[ind].layout)
      ensures tensors[ind].info.dynamic == old(tensors[ind].info.dynamic)
      ensures var t := old(tensors[ind]);
              var newSize := TotalSize(newShape, t.info.dataType);
              var a := Allocation(old(nextId), newSize);
              && (t.buffer.NoBuffer? ==>
                    && memCalls == old(memCalls) + [AllocateCall(ind, newSize)]
                    && mem == old(mem)[ind := a]
                    && tensors[ind] == TensorState(t.info.(shape := newShape), t.layout, DynamicBuffer(a)))
              && (!t.buffer.NoBuffer? && t.Size() != newSize ==>
                    && memCalls == old(memCalls) + [DeallocateCall(ind), AllocateCall(ind, newSize)]
                    && mem == old(mem)[ind := a]
                    && tensors[ind] == TensorState(t.info.(shape := newShape), t.layout, DynamicBuffer(a)))
              && (!t.buffer.NoBuffer? && t.Size() == newSize ==>
                    && memCalls == old(memCalls) && mem == old(mem) && tensors[ind] == t)
    {
      var t := tensors[ind];
      var newSize := TotalSize(newShape, t.info.dataType);
      if t.buffer.NoBuffer? {
        var a := MemAllocate(ind, newSize);
        tensors := tensors[ind := TensorState(t.info.(shape := newShape), t.layout, DynamicBuffer(a))];
      } else if t.Size() != newSize {
        MemDeallocate(ind);
        var a := MemAllocate(ind, newSize);
        tensors := tensors[ind := TensorState(t.info.(shape := newShape), t.layout, DynamicBuffer(a))];
      }
    }

    /** buildTensor: registers a new tensor, without a buffer. */
    method BuildTensor(ind: nat, info: TensorInfo, layout: Layout)
      requires ind !in tensors
      modifies this
      ensures DynamicKept(old(tensors), tensors)
      ensures old(Valid()) ==> Valid()
      ensures tensors == old(tensors)[ind := TensorState(info, layout, NoBuffer)]
      ensures mem == old(mem) && memCalls == old(memCalls) && deallocMap == old(deallocMap)
    {
      tensors := tensors[ind := TensorState(info, layout, NoBuffer)];
    }

    /** changeShape: sets the shape and marks the tensor dynamic; its buffer
        is left alone. */
    method ChangeShape(ind: nat, newShape: Shape)
      requires ind in tensors
      modifies this
      ensures DynamicKept(old(tensors), tensors)
      ensures old(Valid()) ==> Valid()
      ensures tensors == old(tensors)[ind := old(tensors[ind]).(info := old(tensors[ind].info).(shape := newShape, dynamic := true))]
      ensures mem == old(mem) && memCalls == old(memCalls) && deallocMap == old(deallocMap)
    {
      tensors := tensors[ind := tensors[ind].(info := tensors[ind].info.(shape := newShape, dynamic := true))];
    }

    // ---- planDealloc, deallocInput, deallocSubgraphOutput ---------------------

    /** planDealloc: `operand` may be released once operation `op` has run. */
    method PlanDealloc(op: nat, operand: nat)
      modifies this
      ensures DynamicKept(old(tensors), tensors)
      ensures deallocMap == AddPlan(old(deallocMap), op, operand)
      ensures tensors == old(tensors) && mem == old(mem) && memCalls == old(memCalls) && nextId == old(nextId)
    {
      deallocMap := AddPlan(deallocMap, op, operand);
    }

    /** deallocInput as written: one deallocation per planned dynamic
        operand, in no particular order; static operands are skipped. The
        tensors keep their buffers. A planned operand that is not
        registered makes the call fail, after the deallocations of the
        operands visited before it. */
    method DeallocInputAsWritten(op: nat) returns (ok: bool, released: set<nat>)
      modifies this
      ensures DynamicKept(old(tensors), tensors)
      ensures tensors == old(tensors) && deallocMap == old(deallocMap) && nextId == old(nextId)
      ensures ok <==> (op in old(deallocMap) ==> old(deallocMap)[op] <= old(tensors).Keys)
      ensures released <= DynamicPlanned(old(tensors), old(deallocMap), op)
      ensures ok ==> released == DynamicPlanned(old(tensors), old(deallocMap), op)
      ensures mem == old(mem) - released
      ensures |memCalls| >= |old(memCalls)| && memCalls[..|old(memCalls)|] == old(memCalls)
      ensures OnlyDeallocations(memCalls[|old(memCalls)|..])
      ensures DeallocatedInds(memCalls[|old(memCalls)|..]) == multiset(released)
    {
      if op !in deallocMap {
        assert memCalls[|memCalls|..] == [];
        assert mem == mem - {};
        return true, {};
      }
      var done, m, log;
      ok, done, m, log := ReleasePlanned(deallocMap[op], tensors, mem);
      released := Released(tensors, done);
      mem := m;
      memCalls := memCalls + log;
      assert memCalls[|old(memCalls)|..] == log;
    }

    /** deallocInput with the buffers dropped: as written, and every released
        tensor also drops its block, so the manager stays valid. */
    method DeallocInput(op: nat) returns (ok: bool, released: set<nat>)
      modifies this
      ensures DynamicKept(old(tensors), tensors)
      ensures old(Valid()) ==> Valid()
      ensures deallocMap == old(deallocMap) && nextId == old(nextId)
      ensures ok <==> (op in old(deallocMap) ==> old(deallocMap)[op] <= old(tensors).Keys)
      ensures released <= DynamicPlanned(old(tensors), old(deallocMap), op)
      ensures ok ==> released == DynamicPlanned(old(tensors), old(deallocMap), op)
      ensures tensors == DropBuffers(old(tensors), released)
      ensures mem == old(mem) - released
      ensures |memCalls| >= |old(memCalls)| && memCalls[..|old(memCalls)|] == old(memCalls)
      ensures OnlyDeallocations(memCalls[|old(memCalls)|..])
      ensures DeallocatedInds(memCalls[|old(memCalls)|..]) == multiset(released)
    {
      if op !in deallocMap {
        assert memCalls[|memCalls|..] == [];
        assert tensors == DropBuffers(tensors, {});
        assert mem == mem - {};
        return true, {};
      }
      var done, m, log;
      ok, done, m, log := ReleasePlanned(deallocMap[op], tensors, mem);
      released := Released(tensors, done);
      if Valid() {
        ReleaseKeepsValid(tensors, mem, released);
      }
      tensors, mem := DropBuffers(tensors, released), m;
      memCalls := memCalls + log;
      assert memCalls[|old(memCalls)|..] == log;
    }

    /** deallocSubgraphOutput as written: one deallocation exactly when the
        tensor is dynamic; the tensor keeps its buffer. An operand that is
        not registered makes the call fail and changes nothing. */
    method DeallocSubgraphOutputAsWritten(ind: nat) returns (ok: bool)
      modifies this
      ensures DynamicKept(old(tensors), tensors)
      ensures tensors == old(tensors) && deallocMap == old(deallocMap) && nextId == old(nextId)
      ensures ok <==> ind in old(tensors)
      ensures ok && old(tensors[ind].info.dynamic) ==> mem == old(mem) - {ind} && memCalls == old(memCalls) + [DeallocateCall(ind)]
      ensures !(ok && old(tensors[ind].info.dynamic)) ==> mem == old(mem) && memCalls == old(memCalls)
    {
      if ind !in tensors {
        return false;
      }
      ok := true;
      if !tensors[ind].info.dynamic {
        return;
      }
      MemDeallocate(ind);
    }

    /** deallocSubgraphOutput with the buffer dropped. */
    method DeallocSubgraphOutput(ind: nat) returns (ok: bool)
      modifies this
      ensures DynamicKept(old(tensors), tensors)
      ensures old(Valid()) ==> Valid()
      ensures deallocMap == old(deallocMap) && nextId == old(nextId)
      ensures ok <==> ind in old(tensors)
      ensures ok && old(tensors[ind].info.dynamic) ==>
                && mem == old(mem) - {ind} && memCalls == old(memCalls) + [DeallocateCall(ind)]
                && tensors == DropBuffers(old(tensors), {ind})
      ensures !(ok && old(tensors[ind].info.dynamic)) ==> mem == old(mem) && memCalls == old(memCalls) && tensors == old(tensors)
    {
      if ind !in tensors {
        return false;
      }
      ok := true;
      if !tensors[ind].info.dynamic {
        return;
      }
      MemDeallocate(ind);
      if tensors[ind].buffer.DynamicBuffer? {
        tensors := tensors[ind := tensors[ind].(buffer := NoBuffer)];
      }
    }
  }
  // ---- runs that show the behaviour -----------------------------------------

  /** As written, an operand released after its last use keeps pointing at
      the released block, and a later applyShape of the same byte size
      reuses that block. */
  method StaleBlockAfterRelease() returns (stale: bool)
    ensures stale
  {
    var m := new DynamicTensorManager(map[]);
    m.BuildTensor(0, TensorInfo([2], FLOAT32, false), NHWC);
    m.PlanDealloc(7, 0);
    m.ApplyShapeAsWritten(0, [2]);
    var ok, released := m.DeallocInputAsWritten(7);
    assert DynamicPlanned(map[0 := m.tensors[0]], map[7 := {0}], 7) == {0};
    m.ApplyShapeAsWritten(0, [2]);
    stale := m.tensors[0].buffer.DynamicBuffer? && 0 !in m.mem;
  }

  /** With the buffer dropped on release, the same run gives the tensor a
      new, live block. */
  method FreshBlockAfterRelease() returns (stale: bool)
    ensures !stale
  {
    var m := new DynamicTensorManager(map[]);
    m.BuildTensor(0, TensorInfo([2], FLOAT32, false), NHWC);
    m.PlanDealloc(7, 0);
    m.ApplyShape(0, [2]);
    var ok, released := m.DeallocInput(7);
    m.ApplyShape(0, [2]);
    stale := m.tensors[0].buffer.DynamicBuffer? && 0 !in m.mem;
  }

  /** As written, reshaping a dynamic tensor from [2, 3] to [3, 2] keeps
      [2, 3]: the byte size is the same, so nothing is done. */
  method SameSizeShapeKeptAsWritten() returns (shape: Shape)
    ensures shape == [2, 3]
  {
    var m := new DynamicTensorManager(map[]);
    m.BuildTensor(0, TensorInfo([2, 3], FLOAT32, false), NHWC);
    m.ApplyShapeAsWritten(0, [2, 3]);
    assert NumElements([3, 2]) == 6 == NumElements([2, 3]);
    m.ApplyShapeAsWritten(0, [3, 2]);
    shape := m.tensors[0].info.shape;
  }

  /** With the shape always applied, the tensor takes [3, 2] and keeps its
      block: no memory call is made. */
  method SameSizeShapeApplied() returns (shape: Shape, calls: nat)
    ensures shape == [3, 2] && calls == 1
  {
    var m := new DynamicTensorManager(map[]);
    m.BuildTensor(0, TensorInfo([2, 3], FLOAT32, false), NHWC);
    m.ApplyShape(0, [2, 3]);
    assert NumElements([3, 2]) == 6 == NumElements([2, 3]);
    m.ApplyShape(0, [3, 2]);
    shape, calls := m.tensors[0].info.shape, |m.memCalls|;
  }
}
