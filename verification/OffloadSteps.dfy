/** Each step of the offload pipeline keeps the data invariant, and finds everything it
    dereferences. */
module OffloadSteps {
  import opened Basics
  import opened ValueIndex
  import opened Extents
  import opened OffloadState
  import opened OffloadData
  import S = OffloadStages

  lemma AbsentIffNoPlace(p: Pipe, id: Id)
    ensures Absent(p, id) <==> S.Places(p, id) == 0
  {
  }

  lemma StagedIsUnanswered(s: State)
    requires S.Stages(s)
    ensures PipeUnanswered(s)
  {
    forall id | !Absent(s.pipe, id) ensures id in s.rqsts && Unanswered(s.calls, id) {
      AbsentIffNoPlace(s.pipe, id);
      S.InPipeIsKnown(s, id);
    }
  }

  /** A request that left its place is nowhere, and has not been answered. */
  lemma Leaves(s: State, p1: Pipe, id: Id)
    requires S.Stages(s) && S.OneMore(p1, s.pipe, id)
    ensures Absent(p1, id) && Known(s, id) && id in s.wanted && Unanswered(s.calls, id)
  {
    assert S.Places(s.pipe, id) == S.Places(p1, id) + 1;
    S.InPipeIsKnown(s, id);
    assert multiset(S.UnansweredSet(s))[id] == 1;
    AbsentIffNoPlace(p1, id);
  }

  /** FreeExtent looks only at what is live. */
  lemma FreeStays(c: Config, s: State, s': State, e: Extent)
    requires FreeExtent(c, s, e) && |s'.disk| == |s.disk|
    requires forall o: Owner :: Live(s'.index, s'.stored, s'.rqsts, s'.pipe, o) ==>
               && Live(s.index, s.stored, s.rqsts, s.pipe, o)
               && ExtentOf(c, s'.index, s'.rqsts, o) == ExtentOf(c, s.index, s.rqsts, o)
    ensures FreeExtent(c, s', e)
  {
  }

  /** Taking a request out of its queue and rewriting it. */
  lemma TakeAndRewrite(c: Config, s: State, p1: Pipe, id: Id, r': Rqst)
    requires Data(c, s) && S.Stages(s) && S.OneMore(p1, s.pipe, id) && Shrinks(s.pipe, p1)
    requires id in s.rqsts && r'.op == s.rqsts[id].op && r'.key == s.rqsts[id].key && r'.value == s.rqsts[id].value
    requires r'.op == UPDATE ==> r'.size == s.rqsts[id].size
    ensures Absent(p1, id) && Known(s, id) && id in s.wanted && Unanswered(s.calls, id)
    ensures RqstData(s.index, s.stored, Moving(s.phase), s.wanted, id, s.rqsts[id])
    ensures Data(c, s.(pipe := p1, rqsts := s.rqsts[id := r']))
  {
    Leaves(s, p1, id);
    ShrinkKeeps(c, s, p1);
    RewriteKeeps(c, s.(pipe := p1), id, r');
  }

  /** What a write owned is free once it left, for everybody else. */
  lemma LeavesFree(c: Config, s: State, p1: Pipe, id: Id, r': Rqst)
    requires ClaimsOk(c, s.index, s.stored, s.rqsts, s.pipe) && Shrinks(s.pipe, p1) && Absent(p1, id)
    requires Live(s.index, s.stored, s.rqsts, s.pipe, OfRqst(id))
             && Inside(ExtentOf(c, s.index, s.rqsts, OfRqst(id)), |s.disk|)
    ensures FreeExtent(c, s.(pipe := p1, rqsts := s.rqsts[id := r']), ExtentOf(c, s.index, s.rqsts, OfRqst(id)))
  {
    var s1 := s.(pipe := p1, rqsts := s.rqsts[id := r']);
    forall o: Owner | Live(s1.index, s1.stored, s1.rqsts, s1.pipe, o)
      ensures Disjoint(ExtentOf(c, s.index, s.rqsts, OfRqst(id)), ExtentOf(c, s1.index, s1.rqsts, o))
    {
      assert Live(s.index, s.stored, s.rqsts, s.pipe, o) && o != OfRqst(id);
    }
  }

  // ---- OffloadPoller ----

  /** The request at the head of the finalizer's batch is at no other place. */
  lemma HeadOfFinBatch(s: State, p1: Pipe, id: Id)
    requires S.Stages(s) && S.OneMore(p1, s.pipe, id) && p1.finBatch == s.pipe.finBatch && s.pipe.finBatch != []
    ensures s.pipe.finBatch[0] != id && Known(s, s.pipe.finBatch[0]) && Unanswered(s.calls, s.pipe.finBatch[0])
  {
    Leaves(s, p1, id);
    StagedIsUnanswered(s);
    assert s.pipe.finBatch[0] in s.pipe.finBatch;
    assert !Absent(s.pipe, s.pipe.finBatch[0]);
    S.PopFinTakes(s.pipe);
    Leaves(s, PopFin(s.pipe), s.pipe.finBatch[0]);
  }

  /** A write on its way to the device is not for the key that is being published. */
  lemma NotMoving(s: State, p1: Pipe, id: Id)
    requires S.Stages(s) && MovingOk(s) && RqstsOk(s.index, s.stored, Moving(s.phase), s.rqsts, s.calls, s.wanted)
    requires S.OneMore(p1, s.pipe, id) && p1.finBatch == s.pipe.finBatch
    ensures id in s.rqsts && Moving(s.phase) != Some(s.rqsts[id].key)
  {
    Leaves(s, p1, id);
    if !s.phase.Idle? { HeadOfFinBatch(s, p1, id); }
  }

  /** The key of a request in the batch is where the request needs it. */
  lemma PollFacts(c: Config, s: State)
    requires S.Stages(s) && Data(c, s) && MovingOk(s) && s.pipe.pollBatch != []
    ensures var id := s.pipe.pollBatch[0];
            && Known(s, id) && PollVerdict(s) == None && EngineData(s.stored, PollEffect(s).rqsts[id])
  {
    S.PopPollTakes(s.pipe);
    Leaves(s, PopPoll(s.pipe), s.pipe.pollBatch[0]);
    NotMoving(s, PopPoll(s.pipe), s.pipe.pollBatch[0]);
  }

  lemma Routed(c: Config, s: State, id: Id, p1: Pipe, r': Rqst)
    requires Data(c, s) && S.Stages(s) && S.OneMore(p1, s.pipe, id) && Shrinks(s.pipe, p1)
    requires id in s.rqsts && r' in {s.rqsts[id], s.rqsts[id].(size := r'.size)}
             && (r'.op == UPDATE ==> r'.size == s.rqsts[id].size)
    requires EngineData(s.stored, r')
    ensures Known(s, id)
    ensures var s1 := s.(pipe := p1, rqsts := s.rqsts[id := r']);
            Data(c, s1.(pipe := PushEngine(p1, id))) && Data(c, Finish(s1, id, UNKNOWN_ERROR, []))
  {
    var s1 := s.(pipe := p1, rqsts := s.rqsts[id := r']);
    TakeAndRewrite(c, s, p1, id, r');
    PushEngineKeeps(c, s1, id);
    FinishKeeps(c, s1, id, UNKNOWN_ERROR, []);
  }

  lemma PollShape(c: Config, s: State, id: Id)
    requires s.pipe.pollBatch != [] && id == s.pipe.pollBatch[0] && Known(s, id) && PollVerdict(s) == None
    ensures var r' := PollEffect(s).rqsts[id];
            var s1 := s.(pipe := PopPoll(s.pipe), rqsts := s.rqsts[id := r']);
            && r' in {s.rqsts[id], s.rqsts[id].(size := r'.size)} && (r'.op == UPDATE ==> r'.size == s.rqsts[id].size)
            && PollOne(c, s) in {s1.(pipe := PushEngine(PopPoll(s.pipe), id)), Finish(s1, id, UNKNOWN_ERROR, [])}
  {
  }

  lemma PollData(c: Config, s: State)
    requires S.Stages(s) && Data(c, s) && MovingOk(s) && s.pipe.pollBatch != []
    ensures Known(s, s.pipe.pollBatch[0]) && Data(c, PollOne(c, s))
  {
    var id := s.pipe.pollBatch[0];
    PollFacts(c, s);
    PollShape(c, s, id);
    S.PopPollTakes(s.pipe);
    Routed(c, s, id, PopPoll(s.pipe), PollEffect(s).rqsts[id]);
  }

  // ---- SpdkIoEngine ----

  lemma EngineDefined(c: Config, s: State)
    requires S.Stages(s) && Data(c, s) && MovingOk(s) && s.pipe.engineBatch != []
    ensures var id := s.pipe.engineBatch[0];
            && Known(s, id) && RqstData(s.index, s.stored, Moving(s.phase), s.wanted, id, s.rqsts[id])
            && EngineData(s.stored, s.rqsts[id]) && Submittable(s, s.rqsts[id])
            && Moving(s.phase) != Some(s.rqsts[id].key)
            && (s.rqsts[id].op == UPDATE ==> s.heap[s.rqsts[id].value] == s.stored[s.rqsts[id].key])
  {
    S.PopEngineTakes(s.pipe);
    Leaves(s, PopEngine(s.pipe), s.pipe.engineBatch[0]);
    NotMoving(s, PopEngine(s.pipe), s.pipe.engineBatch[0]);
  }

  lemma FreeAfterTaking(c: Config, s: State, id: Id, p1: Pipe, r': Rqst, e: Extent)
    requires FreeExtent(c, s, e) && Shrinks(s.pipe, p1) && Absent(p1, id) && id in s.rqsts
    ensures FreeExtent(c, s.(pipe := p1, rqsts := s.rqsts[id := r']), e)
  {
    FreeStays(c, s, s.(pipe := p1, rqsts := s.rqsts[id := r']), e);
  }

  /** A task that was built is handed to the device. */
  lemma ToDevice(c: Config, s: State, id: Id, p1: Pipe, r': Rqst)
    requires S.Stages(s) && Data(c, s) && S.OneMore(p1, s.pipe, id) && Shrinks(s.pipe, p1) && id in s.rqsts
    requires r'.op == s.rqsts[id].op && r'.key == s.rqsts[id].key && r'.value == s.rqsts[id].value
             && r'.size == s.rqsts[id].size
    requires DeviceData(c, s.index, s.disk, s.stored, r')
    requires r'.op == UPDATE ==> FreeExtent(c, s, c.extent(r'.lba, r'.size))
    ensures Data(c, s.(pipe := PushDevice(p1, id), rqsts := s.rqsts[id := r']))
  {
    var s1 := s.(pipe := p1, rqsts := s.rqsts[id := r']);
    TakeAndRewrite(c, s, p1, id, r');
    if r'.op == UPDATE { FreeAfterTaking(c, s, id, p1, r', c.extent(r'.lba, r'.size)); }
    PushDeviceKeeps(c, s1, id);
  }

  lemma RemovalTask(c: Config, s: State, id: Id, p1: Pipe, r': Rqst)
    requires S.Stages(s) && Data(c, s) && S.OneMore(p1, s.pipe, id) && Shrinks(s.pipe, p1) && id in s.rqsts
    requires s.rqsts[id].op == REMOVE && r' == s.rqsts[id].(result := true)
    ensures Known(s, id)
    ensures var s1 := s.(pipe := p1, rqsts := s.rqsts[id := r']);
            Data(c, s1.(pipe := PushFin(p1, id))) && Data(c, Finish(s1, id, UNKNOWN_ERROR, []))
  {
    var s1 := s.(pipe := p1, rqsts := s.rqsts[id := r']);
    TakeAndRewrite(c, s, p1, id, r');
    PushFinKeeps(c, s1, id);
    FinishKeeps(c, s1, id, UNKNOWN_ERROR, []);
  }

  /** The built tasks carry what the device needs. */
  lemma BuiltTask(c: Config, s: State, r: Rqst, lba: nat, pad: Bytes)
    requires KeysOk(c, s.index, s.heap, s.disk, s.stored, Moving(s.phase)) && EngineData(s.stored, r)
    requires Moving(s.phase) != Some(r.key) && (r.op == GET ==> s.index[r.key].location == DISK)
    requires r.op == UPDATE ==>
               && r.value in s.heap && s.heap[r.value] == s.stored[r.key] && r.size == |s.stored[r.key]|
               && Inside(c.extent(lba, r.size), |s.disk|) && r.size + |pad| == c.extent(lba, r.size).length
    ensures r.op == GET ==> DeviceData(c, s.index, s.disk, s.stored, r.(lba := s.index[r.key].ptr.dev.lba))
    ensures r.op == UPDATE ==> DeviceData(c, s.index, s.disk, s.stored, r.(lba := lba, buff := s.heap[r.value] + pad))
  {
    assert r.op == UPDATE ==> (s.heap[r.value] + pad)[..r.size] == s.heap[r.value];
  }

  lemma EngineStepData(c: Config, s: State, lba: nat, pad: Bytes)
    requires S.Stages(s) && Data(c, s) && MovingOk(s) && s.pipe.engineBatch != [] && s.pipe.engineBatch[0] in s.rqsts
    requires var r := s.rqsts[s.pipe.engineBatch[0]];
             r.op == UPDATE ==>
               FreeExtent(c, s, c.extent(lba, r.size)) && r.size + |pad| == c.extent(lba, r.size).length
    requires Known(s, s.pipe.engineBatch[0]) && Submittable(s, s.rqsts[s.pipe.engineBatch[0]])
    ensures Data(c, EngineOne(c, s, lba, pad))
  {
    var id := s.pipe.engineBatch[0];
    EngineDefined(c, s);
    S.PopEngineTakes(s.pipe);
    EngineShape(c, s, lba, pad);
    if s.rqsts[id].op == REMOVE {
      RemovalTask(c, s, id, PopEngine(s.pipe), BuiltRqst(s, s.rqsts[id], lba, pad));
    } else {
      Submitted(c, s, id, lba, pad, EngineOne(c, s, lba, pad));
    }
  }

  lemma EngineShape(c: Config, s: State, lba: nat, pad: Bytes)
    requires s.pipe.engineBatch != [] && Known(s, s.pipe.engineBatch[0])
    requires Submittable(s, s.rqsts[s.pipe.engineBatch[0]])
    ensures var id, p1, t := s.pipe.engineBatch[0], PopEngine(s.pipe), EngineOne(c, s, lba, pad);
            var s1 := s.(pipe := p1, rqsts := s.rqsts[id := BuiltRqst(s, s.rqsts[id], lba, pad)]);
            if s.rqsts[id].op == REMOVE
            then t == s1.(pipe := PushFin(p1, id)) || t == Finish(s1, id, UNKNOWN_ERROR, [])
            else t == s1.(pipe := PushDevice(p1, id), ioBufsInUse := t.ioBufsInUse)
  {
  }

  /** The task is built, and handed to the device. */
  lemma Submitted(c: Config, s: State, id: Id, lba: nat, pad: Bytes, t: State)
    requires S.Stages(s) && Data(c, s) && s.pipe.engineBatch != [] && id == s.pipe.engineBatch[0] && Known(s, id)
    requires Submittable(s, s.rqsts[id]) && s.rqsts[id].op != REMOVE
    requires RqstData(s.index, s.stored, Moving(s.phase), s.wanted, id, s.rqsts[id])
    requires EngineData(s.stored, s.rqsts[id]) && Moving(s.phase) != Some(s.rqsts[id].key)
    requires s.rqsts[id].op == UPDATE ==>
               && s.heap[s.rqsts[id].value] == s.stored[s.rqsts[id].key]
               && FreeExtent(c, s, c.extent(lba, s.rqsts[id].size))
               && s.rqsts[id].size + |pad| == c.extent(lba, s.rqsts[id].size).length
    requires t == s.(pipe := PushDevice(PopEngine(s.pipe), id), ioBufsInUse := t.ioBufsInUse,
                     rqsts := s.rqsts[id := BuiltRqst(s, s.rqsts[id], lba, pad)])
    ensures Data(c, t)
  {
    S.PopEngineTakes(s.pipe);
    BuiltTask(c, s, s.rqsts[id], lba, pad);
    ToDevice(c, s, id, PopEngine(s.pipe), BuiltRqst(s, s.rqsts[id], lba, pad));
  }

  // ---- SpdkBdev ----

  /** A read was done: its bytes are those stored under its key. */
  lemma ReadData(c: Config, s: State, r: Rqst, ok: bool, buff: Bytes)
    requires KeysOk(c, s.index, s.heap, s.disk, s.stored, Moving(s.phase))
    requires DeviceData(c, s.index, s.disk, s.stored, r) && r.op == GET
    requires Moving(s.phase) != Some(r.key) && s.index[r.key].location == DISK
    requires ok ==> buff == ReadDisk(s.disk, c.extent(r.lba, r.size))
    ensures FinData(c, s.disk, s.stored, r.(result := ok, buff := buff))
  {
    var e := c.extent(r.lba, r.size);
    assert WrapperData(c, s.heap, s.disk, s.index[r.key], s.stored[r.key]);
    assert ReadDisk(s.disk, e)[..r.size] == s.disk[e.start..e.start + r.size];
  }

  lemma ReadDone(c: Config, s: State, id: Id, p1: Pipe, ok: bool, buff: Bytes)
    requires S.Stages(s) && Data(c, s) && MovingOk(s) && S.OneMore(p1, s.pipe, id) && Shrinks(s.pipe, p1)
    requires p1.finBatch == s.pipe.finBatch
    requires id in s.pipe.device && s.rqsts[id].op == GET
    requires ok ==> buff == ReadDisk(s.disk, c.extent(s.rqsts[id].lba, s.rqsts[id].size))
    ensures var s1 := s.(pipe := p1, rqsts := s.rqsts[id := s.rqsts[id].(result := ok, buff := buff)]);
            Data(c, s1.(pipe := PushFin(p1, id))) && Data(c, s1.(pipe := PushLost(p1, id)))
  {
    var r' := s.rqsts[id].(result := ok, buff := buff);
    var s1 := s.(pipe := p1, rqsts := s.rqsts[id := r']);
    TakeAndRewrite(c, s, p1, id, r');
    NotMoving(s, p1, id);
    ReadData(c, s, s.rqsts[id], ok, buff);
    PushFinKeeps(c, s1, id);
    ShrinkKeeps(c, s1, PushLost(p1, id));
  }

  /** A write was done, or failed and left anything behind. */
  lemma WriteDone(c: Config, s: State, id: Id, p1: Pipe, ok: bool, data: Bytes)
    requires S.Stages(s) && Data(c, s) && S.OneMore(p1, s.pipe, id) && Shrinks(s.pipe, p1)
    requires id in s.pipe.device && s.rqsts[id].op == UPDATE
    requires |data| == c.extent(s.rqsts[id].lba, s.rqsts[id].size).length && (ok ==> data == s.rqsts[id].buff)
    ensures var r := s.rqsts[id];
            var s1 := s.(pipe := p1, rqsts := s.rqsts[id := r.(result := ok)],
                         disk := WriteDisk(s.disk, c.extent(r.lba, r.size), data));
            Data(c, s1) && FreeExtent(c, s1, c.extent(r.lba, r.size)) && FinData(c, s1.disk, s1.stored, s1.rqsts[id])
  {
    var r := s.rqsts[id];
    var r', e := r.(result := ok), c.extent(r.lba, r.size);
    var s2 := s.(pipe := p1, rqsts := s.rqsts[id := r']);
    TakeAndRewrite(c, s, p1, id, r');
    LeavesFree(c, s, p1, id, r');
    WriteKeeps(c, s2, e, data);
    FreeStays(c, s2, s2.(disk := WriteDisk(s.disk, e, data)), e);
    if ok { WriteHere(c, s.disk, data, r.lba, s.stored[r.key]); }
  }

  lemma WriteHandedOn(c: Config, s1: State, id: Id)
    requires Data(c, s1) && Absent(s1.pipe, id) && id in s1.rqsts && FinData(c, s1.disk, s1.stored, s1.rqsts[id])
    requires FreeExtent(c, s1, c.extent(s1.rqsts[id].lba, s1.rqsts[id].size))
    ensures Data(c, s1.(pipe := PushFin(s1.pipe, id))) && Data(c, s1.(pipe := PushLost(s1.pipe, id)))
  {
    PushFinKeeps(c, s1, id);
    ShrinkKeeps(c, s1, PushLost(s1.pipe, id));
  }

  lemma CompleteShape(c: Config, s: State, i: nat, ok: bool, junk: Bytes)
    requires i < |s.pipe.device| && s.pipe.device[i] in s.rqsts
    requires TransferFits(c, s.disk, s.rqsts[s.pipe.device[i]], junk)
    ensures var id, p1, s1 := s.pipe.device[i], PopDevice(s.pipe, i), CompleteEffect(c, s, i, ok, junk);
            && s1.pipe == p1 && CompleteOne(c, s, i, ok, junk) == s1.(pipe := HandOn(c, p1, id))
            && (s.rqsts[id].op != UPDATE ==>
                  s1 == s.(pipe := p1, rqsts := s.rqsts[id := s.rqsts[id].(
                             result := ok, buff := CompletedRqst(c, s.disk, s.rqsts[id], ok, junk).buff)]))
  {
  }

  lemma WriteCompleted(c: Config, s: State, i: nat, ok: bool, junk: Bytes)
    requires S.Stages(s) && Data(c, s) && i < |s.pipe.device| && s.pipe.device[i] in s.rqsts
             && s.rqsts[s.pipe.device[i]].op == UPDATE
    requires TransferFits(c, s.disk, s.rqsts[s.pipe.device[i]], junk)
    ensures Data(c, CompleteOne(c, s, i, ok, junk))
  {
    var id, p1, s1 := s.pipe.device[i], PopDevice(s.pipe, i), CompleteEffect(c, s, i, ok, junk);
    S.PopDeviceTakes(s.pipe, i);
    PopDeviceShrinks(s.pipe, i);
    CompleteShape(c, s, i, ok, junk);
    WriteToFin(c, s, id, p1, ok, if ok then s.rqsts[id].buff else junk, s1);
  }

  lemma WriteToFin(c: Config, s: State, id: Id, p1: Pipe, ok: bool, data: Bytes, s1: State)
    requires S.Stages(s) && Data(c, s) && S.OneMore(p1, s.pipe, id) && Shrinks(s.pipe, p1)
    requires id in s.pipe.device && s.rqsts[id].op == UPDATE
    requires |data| == c.extent(s.rqsts[id].lba, s.rqsts[id].size).length && (ok ==> data == s.rqsts[id].buff)
    requires s1 == s.(pipe := p1, rqsts := s.rqsts[id := s.rqsts[id].(result := ok)], ioBufsInUse := s1.ioBufsInUse,
                      disk := WriteDisk(s.disk, c.extent(s.rqsts[id].lba, s.rqsts[id].size), data))
    ensures Data(c, s1.(pipe := PushFin(p1, id))) && Data(c, s1.(pipe := PushLost(p1, id)))
  {
    Leaves(s, p1, id);
    WriteDone(c, s, id, p1, ok, data);
    WriteHandedOn(c, s1, id);
  }

  lemma CompleteData(c: Config, s: State, i: nat, ok: bool, junk: Bytes)
    requires S.Stages(s) && Data(c, s) && MovingOk(s) && i < |s.pipe.device| && s.pipe.device[i] in s.rqsts
    requires TransferFits(c, s.disk, s.rqsts[s.pipe.device[i]], junk)
    ensures Data(c, CompleteOne(c, s, i, ok, junk))
  {
    if s.rqsts[s.pipe.device[i]].op == UPDATE {
      WriteCompleted(c, s, i, ok, junk);
    } else {
      ReadCompleted(c, s, i, ok, junk);
    }
  }

  lemma OnDeviceIsGet(c: Config, s: State, id: Id)
    requires Data(c, s) && id in s.pipe.device && id in s.rqsts && s.rqsts[id].op != UPDATE
    ensures s.rqsts[id].op == GET
  {
    assert DeviceData(c, s.index, s.disk, s.stored, s.rqsts[id]);
  }

  lemma ReadCompleted(c: Config, s: State, i: nat, ok: bool, junk: Bytes)
    requires S.Stages(s) && Data(c, s) && MovingOk(s) && i < |s.pipe.device| && s.pipe.device[i] in s.rqsts
    requires s.rqsts[s.pipe.device[i]].op != UPDATE && TransferFits(c, s.disk, s.rqsts[s.pipe.device[i]], junk)
    ensures Data(c, CompleteOne(c, s, i, ok, junk))
  {
    var id := s.pipe.device[i];
    S.PopDeviceTakes(s.pipe, i);
    PopDeviceShrinks(s.pipe, i);
    CompleteShape(c, s, i, ok, junk);
    OnDeviceIsGet(c, s, id);
    ReadDone(c, s, id, PopDevice(s.pipe, i), ok, CompletedRqst(c, s.disk, s.rqsts[id], ok, junk).buff);
  }

  // ---- FinalizePoller ----

  /** A request that is not a read is the only one under way for its key. */
  lemma Alone(s: State, id: Id)
    requires RqstsOk(s.index, s.stored, Moving(s.phase), s.rqsts, s.calls, s.wanted)
    requires id in s.rqsts && Unanswered(s.calls, id)
    requires s.rqsts[id].op != GET
    ensures NoneUnanswered(s.(calls := s.calls[id := 1]), s.rqsts[id].key)
  {
  }

  lemma FinishedData(c: Config, s: State, id: Id, code: Code, bytes: Bytes)
    requires S.Stages(s) && Data(c, s) && s.pipe.finBatch != [] && id == s.pipe.finBatch[0] && Known(s, id)
             && id in s.wanted
    requires s.rqsts[id].op == GET ==> code != KEY_NOT_FOUND && (code == OK ==> bytes == s.wanted[id])
    ensures Unanswered(s.calls, id) && Data(c, Finish(s.(pipe := PopFin(s.pipe)), id, code, bytes))
  {
    var p1 := PopFin(s.pipe);
    S.PopFinTakes(s.pipe);
    Leaves(s, p1, id);
    ShrinkKeeps(c, s, p1);
    FinishKeeps(c, s.(pipe := p1), id, code, bytes);
  }

  lemma FinishedStages(s: State, id: Id, code: Code, bytes: Bytes)
    requires S.Stages(s) && s.pipe.finBatch != [] && id == s.pipe.finBatch[0] && Known(s, id)
    ensures PipeUnanswered(Finish(s.(pipe := PopFin(s.pipe)), id, code, bytes))
  {
    var s1 := s.(pipe := PopFin(s.pipe));
    S.PopFinTakes(s.pipe);
    S.FinishKeeps(s, s1, id, code, bytes);
    StagedIsUnanswered(Finish(s1, id, code, bytes));
  }

  lemma FinDefined(c: Config, s: State)
    requires S.Stages(s) && Data(c, s) && s.pipe.finBatch != []
    ensures var id := s.pipe.finBatch[0];
            && Known(s, id) && RqstData(s.index, s.stored, Moving(s.phase), s.wanted, id, s.rqsts[id])
            && FinData(c, s.disk, s.stored, s.rqsts[id])
            && (s.rqsts[id].op == GET && s.rqsts[id].result ==> s.rqsts[id].size <= |s.rqsts[id].buff|)
            && (s.rqsts[id].op != GET ==> NoneUnanswered(s.(calls := s.calls[id := 1]), s.rqsts[id].key))
  {
    S.PopFinTakes(s.pipe);
    Leaves(s, PopFin(s.pipe), s.pipe.finBatch[0]);
    if s.rqsts[s.pipe.finBatch[0]].op != GET { Alone(s, s.pipe.finBatch[0]); }
  }

  lemma PublishedExtent(c: Config, s: State, id: Id, p1: Pipe)
    requires Data(c, s) && Shrinks(s.pipe, p1) && Absent(p1, id) && id in s.pipe.finBatch
    requires s.rqsts[id].op == UPDATE && s.rqsts[id].result
    ensures FreeExtent(c, s.(pipe := p1), c.extent(s.rqsts[id].lba, s.rqsts[id].size))
  {
    LeavesFree(c, s, p1, id, s.rqsts[id]);
    assert s.rqsts[id := s.rqsts[id]] == s.rqsts;
  }

  lemma FreeToPublish(c: Config, s: State, id: Id)
    requires S.Stages(s) && Data(c, s) && s.pipe.finBatch != [] && id == s.pipe.finBatch[0] && Known(s, id)
    requires s.rqsts[id].op == UPDATE && s.rqsts[id].result
    ensures FreeExtent(c, Finish(s.(pipe := PopFin(s.pipe)), id, OK, []), c.extent(s.rqsts[id].lba, s.rqsts[id].size))
  {
    var p1 := PopFin(s.pipe);
    S.PopFinTakes(s.pipe);
    Leaves(s, p1, id);
    PublishedExtent(c, s, id, p1);
    FreeStays(c, s.(pipe := p1), Finish(s.(pipe := p1), id, OK, []), c.extent(s.rqsts[id].lba, s.rqsts[id].size));
  }

  /** The finalizer's three steps of publishing. */
  lemma FinCancelData(c: Config, s: State)
    requires S.Stages(s) && Data(c, s) && s.phase.Idle? && ToPublish(s)
    ensures Data(c, FinCancelled(s))
  {
    FinDefined(c, s);
    var r := s.rqsts[s.pipe.finBatch[0]];
    CancelKeeps(c, s, r.key, r.value);
  }

  lemma FinPointData(c: Config, s: State, granted: bool)
    requires S.Stages(s) && Data(c, s) && MovingOk(s) && s.phase.Cancelled? && ToPublish(s)
    ensures Data(c, FinPointed(c, s, granted))
  {
    StagedIsUnanswered(s);
    var dev := DeviceAddr(s.rqsts[s.pipe.finBatch[0]].lba, c.busAddr);
    PointKeeps(c, s, s.phase.k, if granted then Device(dev) else Null);
  }

  /** The order of publishing and answering does not matter. */
  lemma NoneLeft(s: State, id: Id, k: Key)
    requires s.pipe.finBatch != [] && Known(s, id) && NoneUnanswered(s.(calls := s.calls[id := 1]), k)
    ensures NoneUnanswered(Finish(s.(pipe := PopFin(s.pipe)), id, OK, []), k)
  {
  }

  lemma FinPublish(c: Config, s: State, id: Id, r: Rqst)
    requires S.Stages(s) && Data(c, s) && MovingOk(s) && s.phase == Pointed(r.key)
    requires s.pipe.finBatch != [] && id == s.pipe.finBatch[0] && Known(s, id)
    requires r == s.rqsts[id] && r.op == UPDATE && r.result
             && RqstData(s.index, s.stored, Moving(s.phase), s.wanted, id, r)
    requires FinData(c, s.disk, s.stored, r) && NoneUnanswered(s.(calls := s.calls[id := 1]), r.key)
    ensures Data(c, Finish(s.(pipe := PopFin(s.pipe)), id, OK, []).(
              index := Publish(s.index, r.key, DeviceAddr(r.lba, c.busAddr)).0, phase := Idle))
  {
    var t := Finish(s.(pipe := PopFin(s.pipe)), id, OK, []);
    FinishedData(c, s, id, OK, []);
    FinishedStages(s, id, OK, []);
    FreeToPublish(c, s, id);
    NoneLeft(s, id, r.key);
    PublishKeeps(c, t, r.key, r.lba);
  }

  lemma RemoveOnDisk(c: Config, s: State, k: Key)
    requires Data(c, s) && k in s.stored && k in s.index && s.index[k].location == DISK
    requires NoneUnanswered(s, k) && PipeUnanswered(s)
    ensures Data(c, s.(index := Remove(s.index, k).0, stored := s.stored - {k}))
  {
    RemoveKeeps(c, s, k);
  }

  lemma FinRemove(c: Config, s: State, id: Id, r: Rqst)
    requires S.Stages(s) && Data(c, s) && s.pipe.finBatch != [] && id == s.pipe.finBatch[0] && Known(s, id)
    requires r == s.rqsts[id] && r.op == REMOVE && RqstData(s.index, s.stored, Moving(s.phase), s.wanted, id, r)
    requires NoneUnanswered(s.(calls := s.calls[id := 1]), r.key)
    ensures Data(c, Finish(s.(pipe := PopFin(s.pipe)), id, OK, []).(index := Remove(s.index, r.key).0,
                                                                    stored := s.stored - {r.key}))
  {
    FinishedData(c, s, id, OK, []);
    FinishedStages(s, id, OK, []);
    NoneLeft(s, id, r.key);
    RemoveOnDisk(c, Finish(s.(pipe := PopFin(s.pipe)), id, OK, []), r.key);
  }

  lemma FinShape(c: Config, s: State, id: Id, r: Rqst)
    requires s.pipe.finBatch != [] && id == s.pipe.finBatch[0] && Known(s, id) && r == s.rqsts[id]
    requires r.op == GET && r.result ==> r.size <= |r.buff|
    requires r.op == UPDATE ==> r.key in s.index
    ensures var s2 := Finish(s.(pipe := PopFin(s.pipe)), id, FinAnswer(c, s).0, FinAnswer(c, s).1);
            FinOne(c, s) ==
              if r.op == UPDATE && r.result then
                s2.(index := Publish(s.index, r.key, DeviceAddr(r.lba, c.busAddr)).0, phase := Idle)
              else if r.op == REMOVE && r.result then
                s2.(index := Remove(s.index, r.key).0, stored := s.stored - {r.key}, phase := Idle)
              else s2.(ioBufsInUse := FinOne(c, s).ioBufsInUse, phase := Idle)
    ensures r.op != GET && r.result ==> FinAnswer(c, s) == (OK, [])
  {
  }

  lemma FinStepData(c: Config, s: State)
    requires S.Stages(s) && Data(c, s) && MovingOk(s) && s.pipe.finBatch != [] && Known(s, s.pipe.finBatch[0])
    requires var r := s.rqsts[s.pipe.finBatch[0]]; r.op == GET && r.result ==> r.size <= |r.buff|
    requires ToPublish(s) ==> s.phase.Pointed?
    ensures Data(c, FinOne(c, s))
  {
    var id := s.pipe.finBatch[0];
    var r := s.rqsts[id];
    FinDefined(c, s);
    FinShape(c, s, id, r);
    if r.op == UPDATE && r.result {
      FinPublish(c, s, id, r);
    } else if r.op == REMOVE && r.result {
      FinRemove(c, s, id, r);
    } else {
      FinishedData(c, s, id, FinAnswer(c, s).0, FinAnswer(c, s).1);
    }
  }
}
