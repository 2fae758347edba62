/**
 The engine's consume over grouped windows, on the stores themselves: charge in turn, stop at the
 first block or failure, give back what has to be given back.
 */
module RateLimitEngine {
  import opened Entries
  import opened MemoryTable
  import opened MemoryStore
  import opened GroupedWindows

  class RateLimitEngine {
    const stores: seq<MemoryStore>
    const slots: seq<Slot>

    ghost function Repr(): (r: set<MemoryStore>) {
      set i | 0 <= i < |stores| :: stores[i]
    }

    ghost predicate Valid()
      reads Repr()
    {
      && |stores| == |slots| && slots != []
      && (forall i, j :: 0 <= i < j < |stores| ==> stores[i] != stores[j])
      && (forall i :: 0 <= i < |stores| ==> stores[i].Valid() && stores[i].lim == slots[i].lim)
    }

    ghost function Mems(): (mems: seq<Mem>)
      reads Repr()
      ensures |mems| == |stores| && forall i :: 0 <= i < |stores| ==> mems[i] == stores[i].View()
    {
      seq(|stores|, i requires 0 <= i < |stores| reads Repr() => stores[i].View())
    }

    lemma GroupIsOk()
      requires Valid()
      ensures GroupOk(slots, Mems())
    {
      hide Ok;
    }

    constructor (stores: seq<MemoryStore>, slots: seq<Slot>)
      requires |stores| == |slots| && slots != []
      requires forall i, j :: 0 <= i < j < |stores| ==> stores[i] != stores[j]
      requires forall i :: 0 <= i < |stores| ==> stores[i].Valid() && stores[i].lim == slots[i].lim
      ensures Valid() && this.stores == stores && this.slots == slots
    {
      this.stores, this.slots := stores, slots;
    }

    /** Ask one slot; `None` when it throws. */
    method Ask(i: nat, req: Request) returns (r: Option<Seen>)
      requires Valid() && i < |slots|
      modifies stores[i]
      ensures Valid() && Ok(slots[i].lim, old(stores[i].View()))
      ensures stores[i].View() == Charged(slots[i], old(stores[i].View()), req)
      ensures r == if slots[i].fault.Throws? then None else Some(Answer(slots[i], old(stores[i].View()), req))
    {
      hide Ok, IncrementKey;
      match slots[i].fault
      case Throws => r := None;
      case Down(reply) => r := Some(Seen(reply, true));
      case Up =>
        var res := stores[i].Increment(req.key, Some(slots[i].cap), req.n, req.now);
        r := Some(Seen(res, false));
    }

    /** Charge slot after slot until one blocks or throws. */
    method ChargeSlots(req: Request) returns (done: seq<Seen>, threw: bool)
      requires Valid()
      modifies Repr()
      ensures Valid() && old(GroupOk(slots, Mems())) && done == Answers(slots, old(Mems()), req)
      ensures threw == (Stop(slots, old(Mems()), req) < |slots| && slots[Stop(slots, old(Mems()), req)].fault.Throws?)
      ensures forall j :: 0 <= j < |slots| ==>
              stores[j].View() == if j < |done| then Charged(slots[j], old(Mems())[j], req) else old(Mems())[j]
    {
      hide Ok, Charged, Answer, StopFrom;
      GroupIsOk();
      ghost var before := Mems();
      done, threw := [], false;
      while |done| < |slots|
        invariant Valid() && |done| <= |slots| && |done| <= Stop(slots, before, req) && !threw
        invariant forall j :: 0 <= j < |done| ==> !slots[j].fault.Throws? && done[j] == Answer(slots[j], before[j], req)
        invariant forall j :: 0 <= j < |slots| ==>
                  stores[j].View() == if j < |done| then Charged(slots[j], before[j], req) else before[j]
      {
        var i := |done|;
        var r := Ask(i, req);
        if r.None? {
          threw := true;
          ThrowerUnchanged(slots[i], before[i], req);
          return;
        }
        done := done + [r.value];
        if r.value.result.isBlocked {
          return;
        }
      }
    }

    lemma ThrowerUnchanged(slot: Slot, m: Mem, req: Request)
      requires Ok(slot.lim, m) && slot.fault.Throws?
      ensures Charged(slot, m, req) == m
    {
      hide Ok;
    }

    /** Give back from the first `n` slots; a store that is down ignores it. */
    method ReturnSlots(n: nat, req: Request)
      requires Valid() && n <= |slots|
      modifies Repr()
      ensures Valid() && old(GroupOk(slots, Mems()))
      ensures forall j :: 0 <= j < |slots| ==>
              stores[j].View() == if j < n then GivenBack(slots[j], old(Mems())[j], req) else old(Mems())[j]
    {
      hide Ok, DecrementKey;
      GroupIsOk();
      ghost var before := Mems();
      var i := 0;
      while i < n
        invariant Valid() && i <= n
        invariant forall j :: 0 <= j < |slots| ==>
                  stores[j].View() == if j < i then GivenBack(slots[j], before[j], req) else before[j]
      {
        if slots[i].fault.Up? {
          stores[i].Decrement(req.key, req.n, false);
        }
        i := i + 1;
      }
    }

    /** What to report, and from how many slots to give back. */
    method Judge(done: seq<Seen>, threw: bool, req: Request, ghost mems: seq<Mem>)
      returns (verdict: Option<Seen>, blockedAt: Option<nat>, binding: Option<nat>, returned: nat)
      requires GroupOk(slots, mems) && done == Answers(slots, mems, req)
      requires threw == (Stop(slots, mems, req) < |slots| && slots[Stop(slots, mems, req)].fault.Throws?)
      ensures returned <= |done| && forall j :: 0 <= j < |done| ==> (RolledBack(slots, mems, req, j) <==> j < returned)
      ensures verdict == Verdict(slots, mems, req)
      ensures verdict.Some? ==>
                var stop := Stop(slots, mems, req);
                && blockedAt == (if stop < |slots| then Some(stop) else None)
                && binding.Some? && (if blockedAt.Some? then binding == blockedAt else Tightest(done, binding.value))
                && ReportsBinding(done, verdict.value, binding.value)
    {
      hide Ok, Charged, Answer, StopFrom, Answers, Merged, ReportsBinding;
      LastBlocks(mems, req);
      verdict, blockedAt, binding := None, None, None;
      if threw {
        return None, None, None, |done|;
      }
      var last := |done| - 1;
      var merged := MergeGroupedResults(done);
      verdict := Some(merged);
      binding := ComputeBindingSlotIndex(done);
      if !done[last].result.isBlocked {
        returned := 0;
        NoneReported(done);
        TightestReported(done, binding.value);
      } else {
        LastReported(done);
        blockedAt := Some(last);
        var deferred := req.draft && !done[last].unavailable;
        returned := if !deferred then last else if merged.result.isBlocked && !merged.unavailable then last + 1 else 0;
      }
    }

    /** One request; no verdict means that a slot threw. */
    method Consume(req: Request) returns (verdict: Option<Seen>, blockedAt: Option<nat>, binding: Option<nat>)
      requires Valid()
      modifies Repr()
      ensures Valid() && old(GroupOk(slots, Mems()))
      ensures forall j :: 0 <= j < |slots| ==> stores[j].View() == FinalAt(slots, old(Mems()), req, j)
      ensures verdict == Verdict(slots, old(Mems()), req)
      ensures verdict.Some? ==>
                var stop := Stop(slots, old(Mems()), req);
                && blockedAt == (if stop < |slots| then Some(stop) else None)
                && binding.Some?
                && (if blockedAt.Some? then binding == blockedAt
                    else Tightest(Answers(slots, old(Mems()), req), binding.value))
                && ReportsBinding(Answers(slots, old(Mems()), req), verdict.value, binding.value)
    {
      hide Ok, Charged, Answer, StopFrom, GivenBack, Verdict, RolledBack, Tightest, Stop, ReportsBinding;
      GroupIsOk();
      ghost var before := Mems();
      var done, threw := ChargeSlots(req);
      var returned;
      verdict, blockedAt, binding, returned := Judge(done, threw, req, before);
      ReturnSlots(returned, req);
    }

    lemma NoneReported(done: seq<Seen>)
      requires done != [] && forall j :: 0 <= j < |done| ==> !done[j].result.isBlocked
      ensures !Merged(done).result.isBlocked
    {
      MergedMeaning(done);
      hide Merged;
    }

    /** Only the slot that stopped the request can have blocked it. */
    lemma LastBlocks(mems: seq<Mem>, req: Request)
      requires GroupOk(slots, mems)
      ensures var (stop, done) := (Stop(slots, mems, req), Answers(slots, mems, req));
              && (forall j :: 0 <= j < |done| && j < stop ==> !done[j].result.isBlocked)
              && (stop < |slots| && !slots[stop].fault.Throws? ==> |done| == stop + 1 && done[stop].result.isBlocked)
              && (forall j :: 0 <= j < |done| ==> done[j].unavailable == slots[j].fault.Down?)
              && (done == [] ==> stop == 0 && slots[0].fault.Throws?)
    {
      hide Ok, IncrementKey, StopFrom;
      var (stop, done) := (Stop(slots, mems, req), Answers(slots, mems, req));
      forall j | 0 <= j < |done| && j < stop ensures !done[j].result.isBlocked {
        assert Passes(slots[j], mems[j], req);
      }
    }
  }
}
