/**
 * logger.MyResponseWriter: a wrapper around an http.ResponseWriter that
 * records the status code and runs registered before-hooks, newest first,
 * each time the header is written. A hook is known by an identity; what it
 * does is not modelled, only that and when it runs. What reaches the wrapped
 * writer and the hooks is kept as a trace of events.
 */
module Logger {

  /** One step the wrapper performs. */
  datatype Event =
    | HookRan(hook: nat, status: int)   // a before-hook called; it sees this status
    | HeaderForwarded(code: int)        // the wrapped WriteHeader called
    | BodyForwarded(data: seq<bv8>)     // the wrapped Write called

  /** The code of the last header forwarded, or 0 if none was. */
  function LastStatus(events: seq<Event>): (r: int)
    ensures (forall i :: 0 <= i < |events| ==> !events[i].HeaderForwarded?) ==> r == 0
  {
    if |events| == 0 then 0
    else if events[|events| - 1].HeaderForwarded? then events[|events| - 1].code
    else LastStatus(events[..|events| - 1])
  }

  /** The hooks run by callBefore, the last registered first, each seeing `status`. */
  function LifoRun(hooks: seq<nat>, status: int): (r: seq<Event>)
    ensures |r| == |hooks|
    ensures forall k :: 0 <= k < |hooks| ==> r[k] == HookRan(hooks[|hooks| - 1 - k], status)
  {
    if |hooks| == 0 then []
    else [HookRan(hooks[|hooks| - 1], status)] + LifoRun(hooks[..|hooks| - 1], status)
  }

  /** The newest registration runs first and the older ones follow in the same LIFO order. */
  lemma LifoRunNewestFirst(hooks: seq<nat>, h: nat, status: int)
    ensures LifoRun(hooks + [h], status) == [HookRan(h, status)] + LifoRun(hooks, status)
  {
    assert (hooks + [h])[..|hooks|] == hooks;
  }

  /** The oldest registration runs last. */
  lemma LifoRunOldestLast(h: nat, hooks: seq<nat>, status: int)
    ensures LifoRun([h] + hooks, status) == LifoRun(hooks, status) + [HookRan(h, status)]
  {
    var l, r := LifoRun([h] + hooks, status), LifoRun(hooks, status) + [HookRan(h, status)];
    assert |l| == |r|;
    forall k | 0 <= k < |l|
      ensures l[k] == r[k]
    {
      if k < |hooks| {
        assert ([h] + hooks)[|hooks| - k] == hooks[|hooks| - 1 - k];
      }
    }
  }

  /** Hooks running does not count as writing a status. */
  lemma {:induction false} LastStatusSkipsHooks(events: seq<Event>, hooks: seq<nat>, status: int)
    ensures LastStatus(events + LifoRun(hooks, status)) == LastStatus(events)
    decreases |hooks|
  {
    var run := LifoRun(hooks, status);
    if |hooks| > 0 {
      var e := events + run;
      var hooks' := hooks[1..];
      assert [hooks[0]] + hooks' == hooks;
      LifoRunOldestLast(hooks[0], hooks', status);
      assert run == LifoRun(hooks', status) + [HookRan(hooks[0], status)];
      assert e == (events + LifoRun(hooks', status)) + [HookRan(hooks[0], status)];
      assert e[..|e| - 1] == events + LifoRun(hooks', status);
      LastStatusSkipsHooks(events, hooks', status);
    } else {
      assert events + run == events;
    }
  }

  /** After WriteHeader(code), whatever ran before it, the recorded status is code. */
  lemma LastStatusAfterWriteHeader(events: seq<Event>, hooks: seq<nat>, code: int)
    ensures LastStatus(events + LifoRun(hooks, code) + [HeaderForwarded(code)]) == code
  {
  }

  /** A body write leaves the recorded status as it was. */
  lemma LastStatusAfterWrite(events: seq<Event>, data: seq<bv8>)
    ensures LastStatus(events + [BodyForwarded(data)]) == LastStatus(events)
  {
    assert (events + [BodyForwarded(data)])[..|events|] == events;
  }

  class MyResponseWriter {
    var status: int
    var beforeFuncs: seq<nat>
    var events: seq<Event>

    /** The status field is the code of the last header written, 0 before the first. */
    predicate Valid()
      reads this
    {
      status == LastStatus(events)
    }

    /** newMyResponseWriter: no status yet, no hooks, nothing written. */
    constructor ()
      ensures Valid() && status == 0 && beforeFuncs == [] && events == []
    {
      status := 0;
      beforeFuncs := [];
      events := [];
    }

    /** Status(): the last code given to WriteHeader, or 0 if it was never called. */
    function Status(): (s: int)
      reads this
      ensures Valid() ==> s == LastStatus(events)
    {
      status
    }

    /** Before: the hook joins the end of the list; earlier registrations stay in order. */
    method Before(hook: nat)
      modifies this
      ensures beforeFuncs == old(beforeFuncs) + [hook]
      ensures status == old(status) && events == old(events)
    {
      beforeFuncs := beforeFuncs + [hook];
    }

    /** Write: the bytes go to the wrapped writer unchanged; the status is not touched. */
    method Write(data: seq<bv8>)
      requires Valid()
      modifies this
      ensures Valid()
      ensures events == old(events) + [BodyForwarded(data)]
      ensures status == old(status) && beforeFuncs == old(beforeFuncs)
    {
      LastStatusAfterWrite(events, data);
      events := events + [BodyForwarded(data)];
    }

    /**
     * WriteHeader: the code is stored first, then every hook runs (newest
     * first, seeing the new code), then the code is forwarded. The hooks are
     * kept, so a later WriteHeader runs them all again.
     */
    method WriteHeader(code: int)
      modifies this
      ensures Valid() && status == code
      ensures events == old(events) + LifoRun(old(beforeFuncs), code) + [HeaderForwarded(code)]
      ensures beforeFuncs == old(beforeFuncs)
    {
      status := code;
      CallBefore();
      events := events + [HeaderForwarded(code)];
    }

    /** callBefore: from the last hook down to the first. */
    method CallBefore()
      modifies this
      ensures events == old(events) + LifoRun(beforeFuncs, status)
      ensures status == old(status) && beforeFuncs == old(beforeFuncs)
    {
      var i: int := |beforeFuncs| - 1;
      while i >= 0
        invariant -1 <= i < |beforeFuncs|
        invariant status == old(status) && beforeFuncs == old(beforeFuncs)
        invariant events == old(events) + LifoRun(beforeFuncs[i + 1..], status)
        decreases i
      {
        LifoRunOldestLast(beforeFuncs[i], beforeFuncs[i + 1..], status);
        assert [beforeFuncs[i]] + beforeFuncs[i + 1..] == beforeFuncs[i..];
        events := events + [HookRan(beforeFuncs[i], status)];
        i := i - 1;
      }
      assert beforeFuncs[0..] == beforeFuncs;
    }
  }
}
