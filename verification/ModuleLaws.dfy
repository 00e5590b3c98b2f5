/** Where a waiting module goes: every runner operation leaves it in its place, takes it when its time
    has come, or moves it because a client said so. */
module ModuleLaws {
  import opened Timestamps
  import opened Scripts
  import opened RunnerStates
  import opened RunnerLaws

  lemma StaysSame(s: RunnerState, t: RunnerState, now: int)
    requires t.modules == s.modules && t.gone == s.gone && DiesNow(s, t, now)
    ensures Stays(s, t, now)
  {
  }

  lemma StaysTrans(s: RunnerState, t: RunnerState, u: RunnerState, now: int)
    requires Stays(s, t, now) && Stays(t, u, now)
    ensures Stays(s, u, now)
  {
    hide Waits;
    var first, second := t.gone[|s.gone|..], u.gone[|t.gone|..];
    assert u.gone[|s.gone|..] == first + second;
    forall m, k | !u.deleted && Waits(s.modules, m, k)
      ensures LeftRightly(u, m, k, u.gone[|s.gone|..], now)
    {
      assert LeftRightly(t, m, k, first, now);
      if Waits(t.modules, m, k) {
        assert LeftRightly(u, m, k, second, now);
      }
    }
  }

  lemma {:induction false} AddToStays(bs: seq<Bucket>, t: int, x: Module, m: Module, k: int)
    requires Waits(bs, m, k)
    ensures Waits(AddTo(bs, t, x), m, k)
  {
    var r := AddTo(bs, t, x);
    var j :| 0 <= j < |bs| && bs[j].at == k && m in bs[j].members;
    if t < bs[0].at {
      assert r[j + 1] == bs[j];
    } else if bs[0].at == t {
      assert r[j].at == k && m in r[j].members;
    } else if j == 0 {
      assert r[0] == bs[0];
    } else {
      assert bs[1..][j - 1] == bs[j];
      AddToStays(bs[1..], t, x, m, k);
      var i :| 0 <= i < |r[1..]| && r[1..][i].at == k && m in r[1..][i].members;
      assert r[i + 1] == r[1..][i];
    }
  }

  lemma {:induction false} AddAllStays(bs: seq<Bucket>, ms: seq<Module>, now: int, waits: seq<nat>, m: Module, k: int)
    requires |waits| == |ms| && Waits(bs, m, k)
    ensures Waits(AddAll(bs, ms, now, waits), m, k)
    decreases |ms|
  {
    hide AddTo, Waits;
    if ms != [] {
      var n := |ms| - 1;
      AddAllStays(bs, ms[..n], now, waits[..n], m, k);
      AddToStays(AddAll(bs, ms[..n], now, waits[..n]), now + 1000 * waits[n], ms[n], m, k);
    }
  }

  lemma {:induction false} RemoveValueStays(ms: seq<Module>, x: Module, m: Module)
    requires m in ms && m != x
    ensures m in RemoveValue(ms, x)
  {
    if ms[0] != x && ms[0] != m {
      RemoveValueStays(ms[1..], x, m);
    }
  }

  lemma {:induction false} RemoveStays(bs: seq<Bucket>, x: Module, m: Module, k: int)
    requires Waits(bs, m, k) && m != x
    ensures Waits(RemoveModule(bs, x), m, k)
  {
    var r := RemoveModule(bs, x);
    var j :| 0 <= j < |bs| && bs[j].at == k && m in bs[j].members;
    if x in bs[0].members {
      if j == 0 {
        RemoveValueStays(bs[0].members, x, m);
      }
      assert r[j].at == k && m in r[j].members;
    } else if j == 0 {
      assert r[0] == bs[0];
    } else {
      assert bs[1..][j - 1] == bs[j];
      RemoveStays(bs[1..], x, m, k);
      var i :| 0 <= i < |r[1..]| && r[1..][i].at == k && m in r[1..][i].members;
      assert r[i + 1] == r[1..][i];
    }
  }

  lemma {:induction false} InMembers(bs: seq<Bucket>, j: nat, m: Module)
    requires j < |bs| && m in bs[j].members
    ensures m in Members(bs)
  {
    if j > 0 {
      InMembers(bs[1..], j - 1, m);
    }
  }

  lemma InTaken(ms: seq<Module>, m: Module, at: int)
    requires m in ms
    ensures Taken(m, at) in TakenAt(ms, at) && Moved(m, at) in MovedAll(ms, at)
  {
    var k :| 0 <= k < |ms| && ms[k] == m;
    assert TakenAt(ms, at)[k] == Taken(m, at) && MovedAll(ms, at)[k] == Moved(m, at);
  }

  /** The batch holds exactly what is due. */
  lemma TakeStays(s: RunnerState, now: int)
    ensures Stays(s, TakeModules(s, now), now)
  {
    var t := TakeModules(s, now);
    var n := DueBuckets(s.modules, now);
    var log := TakenAt(Members(s.modules[..n]), now);
    assert t.gone[|s.gone|..] == log;
    forall m, k | Waits(s.modules, m, k)
      ensures LeftRightly(t, m, k, log, now)
    {
      var j :| 0 <= j < |s.modules| && s.modules[j].at == k && m in s.modules[j].members;
      if j < n {
        assert s.modules[..n][j] == s.modules[j];
        InMembers(s.modules[..n], j, m);
        InTaken(Members(s.modules[..n]), m, now);
      } else {
        assert t.modules[j - n] == s.modules[j];
      }
    }
  }

  lemma RequeueStays(s: RunnerState, t: int, now: int)
    requires s.inFlight != []
    ensures Stays(s, Requeue(s, t), now)
  {
    hide AddTo, Waits;
    forall m, k | Waits(s.modules, m, k)
      ensures Waits(Requeue(s, t).modules, m, k)
    {
      AddToStays(s.modules, t, s.inFlight[0], m, k);
    }
  }

  lemma DestroyStays(s: RunnerState, now: int)
    ensures Stays(s, Destroy(s, now), now)
  {
  }

  lemma StartStays(s: RunnerState, now: int, waits: seq<nat>)
    requires |waits| == |s.stopped|
    ensures Stays(s, StartThread(s, now, waits), now)
  {
    hide AddAll, Waits;
    forall m, k | Waits(s.modules, m, k)
      ensures Waits(AddAll(s.modules, s.stopped, now, waits), m, k)
    {
      AddAllStays(s.modules, s.stopped, now, waits, m, k);
    }
  }

  lemma StopStays(s: RunnerState, now: int)
    ensures Stays(s, StopThread(s, now), now)
  {
    var t := StopThread(s, now);
    var log := MovedAll(Members(s.modules), now);
    assert t.gone[|s.gone|..] == log;
    forall m, k | Waits(s.modules, m, k)
      ensures LeftRightly(t, m, k, log, now)
    {
      var j :| 0 <= j < |s.modules| && s.modules[j].at == k && m in s.modules[j].members;
      InMembers(s.modules, j, m);
      InTaken(Members(s.modules), m, now);
    }
  }

  lemma WakeUpStays(s: RunnerState, x: Module, t: int, now: int)
    ensures Stays(s, WakeUpModule(s, x, t, now), now)
  {
    hide AddTo, RemoveModule, Waits;
    var u := WakeUpModule(s, x, t, now);
    assert u.gone[|s.gone|..] == [Moved(x, now)];
    forall m, k | Waits(s.modules, m, k)
      ensures LeftRightly(u, m, k, [Moved(x, now)], now)
    {
      if m != x {
        RemoveStays(s.modules, x, m, k);
        AddToStays(RemoveModule(s.modules, x), t, x, m, k);
      }
    }
  }

  lemma RegisterStays(s: RunnerState, x: Module, t: int, now: int)
    ensures Stays(s, RegisterModuleAt(s, x, t), now)
  {
    hide AddTo, Waits;
    forall m, k | Waits(s.modules, m, k)
      ensures Waits(AddTo(s.modules, t, x), m, k)
    {
      AddToStays(s.modules, t, x, m, k);
    }
  }

  lemma DeRegisterStays(s: RunnerState, x: Module, now: int)
    ensures Stays(s, DeRegister(s, x, now), now)
  {
    hide RemoveModule, RemoveValue, Waits, Members;
    var u := DeRegister(s, x, now);
    assert u.gone[|s.gone|..] == [Moved(x, now)];
    forall m, k | Waits(s.modules, m, k)
      ensures LeftRightly(u, m, k, [Moved(x, now)], now)
    {
      if m != x {
        RemoveStays(s.modules, x, m, k);
      }
    }
  }

  /** A processed module waits again, for a later time, or a call has moved it since. */
  ghost predicate WaitsAgain(s: RunnerState, t: RunnerState, m: Module, now: int) {
    s.gone <= t.gone && (Moved(m, now) in t.gone[|s.gone|..] || exists k :: k > now && Waits(t.modules, m, k))
  }

  /** Nothing that happens at the same time takes it away. */
  lemma WaitsAgainLater(s: RunnerState, t: RunnerState, u: RunnerState, m: Module, now: int)
    requires WaitsAgain(s, t, m, now) && Stays(t, u, now) && !u.deleted
    ensures WaitsAgain(s, u, m, now)
  {
    hide Waits;
    assert u.gone[|s.gone|..] == t.gone[|s.gone|..] + u.gone[|t.gone|..];
    if Moved(m, now) !in t.gone[|s.gone|..] {
      var k :| k > now && Waits(t.modules, m, k);
      assert LeftRightly(u, m, k, u.gone[|t.gone|..], now);
    }
  }

  lemma WaitsAtOnce(s: RunnerState, t: RunnerState, m: Module, k: int, now: int)
    requires Stays(s, t, now) && k > now && Waits(t.modules, m, k)
    ensures WaitsAgain(s, t, m, now)
  {
  }

  // ---------------------------------------------------------------- while nobody runs

  lemma UntakenSame(s: RunnerState, t: RunnerState, now: int)
    requires t.modules == s.modules && t.gone == s.gone && t.deleted == s.deleted && t.deletedAt == s.deletedAt
    ensures Untaken(s, t, now)
  {
  }

  lemma UntakenTrans(s: RunnerState, t: RunnerState, u: RunnerState, now: int, later: int)
    requires Untaken(s, t, now) && Untaken(t, u, later) && now <= later
    ensures Untaken(s, u, later)
  {
    hide Waits;
    assert u.gone[|s.gone|..] == t.gone[|s.gone|..] + u.gone[|t.gone|..];
    forall m, k | !u.deleted && Waits(s.modules, m, k)
      ensures Waits(u.modules, m, k) || MovedBy(m, u.gone[|s.gone|..], later)
    {
      if MovedBy(m, t.gone[|s.gone|..], now) {
        var at :| at <= now && Moved(m, at) in t.gone[|s.gone|..];
        assert Moved(m, at) in u.gone[|s.gone|..];
      }
    }
  }

  /** An operation that takes nothing for RunReady. */
  lemma UntakenOp(s: RunnerState, t: RunnerState, now: int)
    requires Stays(s, t, now) && forall g | g in t.gone[|s.gone|..] :: g.Moved?
    ensures Untaken(s, t, now)
  {
    hide Waits;
    forall m, k | !t.deleted && Waits(s.modules, m, k)
      ensures Waits(t.modules, m, k) || MovedBy(m, t.gone[|s.gone|..], now)
    {
      assert LeftRightly(t, m, k, t.gone[|s.gone|..], now);
    }
  }
}
