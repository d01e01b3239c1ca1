/** Replaying the workflow code over longer and longer histories. */
module History {
  import opened Types
  import opened Attempts
  import opened Workflow

  lemma SeenSnoc(h: seq<Event>, e: Event, a: Act)
    ensures Seen(h + [e], a) ==
            if Seen(h, a).None? && e.Settled? && e.a == a then Some(e.r) else Seen(h, a)
  {
  }

  lemma VisibleSnoc(h: seq<Event>, e: Event)
    ensures Visible(h + [e]) == if e.Task? then h + [e] else Visible(h)
  {
  }

  lemma {:induction false} SeenPrefix(h: seq<Event>, g: seq<Event>, a: Act)
    requires h <= g && Seen(h, a).Some?
    ensures Seen(g, a) == Seen(h, a)
    decreases |g|
  {
    if h != g {
      SeenPrefix(h, g[..|g| - 1], a);
    }
  }

  lemma {:induction false} ChoosePrefix(h: seq<Event>, g: seq<Event>)
    requires h <= g && !Choose(h).Undecided?
    ensures Choose(g) == Choose(h)
    decreases |g|
  {
    if h != g {
      ChoosePrefix(h, g[..|g| - 1]);
    }
  }

  lemma {:induction false} VisibleIsPrefix(h: seq<Event>)
    ensures Visible(h) <= h
    ensures Task in h <==> Task in Visible(h)
    ensures Choose(h) == Choose(Visible(h))
    decreases |h|
  {
    if h != [] && !h[|h| - 1].Task? {
      VisibleIsPrefix(h[..|h| - 1]);
      assert h == h[..|h| - 1] + [h[|h| - 1]];
    }
  }

  lemma {:induction false} VisibleMonotone(h: seq<Event>, g: seq<Event>)
    requires h <= g
    ensures Visible(h) <= Visible(g)
    decreases |g|
  {
    VisibleIsPrefix(h);
    if h != g && !g[|g| - 1].Task? {
      VisibleMonotone(h, g[..|g| - 1]);
    }
  }

  /** Collecting on a longer history picks up where the shorter one stopped. */
  lemma {:induction false} ScanResumes(n: nat, h: seq<Event>, g: seq<Event>, k: nat, err: Option<Res>)
    requires k <= n && h <= g
    ensures Scan(n, h, k, err).0 <= n
    ensures Scan(n, g, k, err) == Scan(n, g, Scan(n, h, k, err).0, Scan(n, h, k, err).1)
    decreases n - k
  {
    if k < n && Seen(h, ActResize(k)).Some? {
      SeenPrefix(h, g, ActResize(k));
      match Seen(h, ActResize(k)).value
      case Ok => ScanResumes(n, h, g, k + 1, err);
      case Err(w) => ScanResumes(n, h, g, k + 1, Some(Error(ActResize(k), w)));
    }
  }

  lemma LastPrefix(h: seq<Event>, g: seq<Event>, cmds: seq<Cmd>, a: Act, carry: Option<Res>)
    requires h <= g
    ensures cmds <= Last(h, cmds, a, carry).cmds <= Last(g, cmds, a, carry).cmds
  {
    if Seen(h, a).Some? {
      SeenPrefix(h, g, a);
    }
  }

  lemma AfterGatherPrefix(n: nat, h: seq<Event>, g: seq<Event>, cmds: seq<Cmd>)
    requires h <= g
    ensures cmds <= AfterGather(n, h, cmds).cmds <= AfterGather(n, g, cmds).cmds
  {
    ScanResumes(n, h, g, 0, None);
    var (k, err) := Scan(n, h, 0, None);
    if k == n {
      LastPrefix(h, g, cmds + [Schedule(ActFail)], ActFail, err);
      LastPrefix(h, g, cmds + [Schedule(ActComplete)], ActComplete, None);
    } else {
      var (k', err') := Scan(n, g, 0, None);
      LastPrefix(g, g, cmds + [Schedule(ActFail)], ActFail, err');
      LastPrefix(g, g, cmds + [Schedule(ActComplete)], ActComplete, None);
    }
  }

  lemma AfterValidatePrefix(n: nat, h: seq<Event>, g: seq<Event>, cmds: seq<Cmd>)
    requires h <= g
    ensures cmds <= AfterValidate(n, h, cmds).cmds <= AfterValidate(n, g, cmds).cmds
  {
    LastPrefix(h, g, cmds, ActProcessing, None);
    AfterGatherPrefix(n, h, g, cmds + ResizeCmds(n));
    if Seen(h, ActProcessing).Some? {
      SeenPrefix(h, g, ActProcessing);
    }
  }

  lemma AfterSignalPrefix(n: nat, h: seq<Event>, g: seq<Event>, cmds: seq<Cmd>)
    requires h <= g
    ensures cmds <= AfterSignal(n, h, cmds).cmds <= AfterSignal(n, g, cmds).cmds
  {
    LastPrefix(h, g, cmds, ActValidate, None);
    AfterValidatePrefix(n, h, g, cmds + [Schedule(ActProcessing)]);
    if Seen(h, ActValidate).Some? {
      SeenPrefix(h, g, ActValidate);
    }
  }

  lemma ExecPrefix(n: nat, h: seq<Event>, g: seq<Event>)
    requires h <= g
    ensures Exec(n, h).cmds <= Exec(n, g).cmds
  {
    if Task in h {
      assert Task in g;
      if Choose(h).Undecided? {
        if Task in g {
          LastPrefix(g, g, [StartTimer, Schedule(ActAbandon)], ActAbandon, None);
          AfterSignalPrefix(n, g, g, [StartTimer, CancelTimer, Schedule(ActValidate)]);
        }
      } else {
        ChoosePrefix(h, g);
        LastPrefix(h, g, [StartTimer, Schedule(ActAbandon)], ActAbandon, None);
        AfterSignalPrefix(n, h, g, [StartTimer, CancelTimer, Schedule(ActValidate)]);
      }
    }
  }

  /** Replaying any prefix of any history issues a prefix of the commands that replaying the whole
      history issues: no command is ever taken back or changed. */
  lemma ReplayPrefix(n: nat, h: seq<Event>, g: seq<Event>)
    requires h <= g
    ensures Exec(n, Visible(h)).cmds <= Exec(n, Visible(g)).cmds
  {
    VisibleMonotone(h, g);
    ExecPrefix(n, Visible(h), Visible(g));
  }
}
