/** An upload that Validate has let through, `complete` ones included, can hold an original that fails the
    checks: exactly when a PUT was accepted after Validate's second call. And as long as its URL lives, an
    upload that reads `complete` can turn to any other original. */
module Unchecked {
  import opened Types
  import opened Attempts
  import opened Workflow
  import opened Machine
  import opened Inv
  import opened Safety
  import opened SafetyTheorems
  import opened StatusOrder
  import opened Provenance
  import opened Deadline
  import opened FanOut
  import opened Blocks
  import opened Progress
  import opened Reachable
  import opened Lateness
  import opened Verdicts
  import opened Checks

  predicate ReadsComplete(s: Upload) {
    s.env.row.Some? && s.env.row.value.status.Complete?
  }

  // ---- After the URL has expired ----

  /** Complete is scheduled and no PUT can be accepted any more. */
  ghost predicate Sealed(cfg: Config, s: Upload) {
    && SInv(cfg, s) && s.wf.Some? && IsScheduled(s.wf.value, ActComplete)
    && s.neg.Issued? && s.url.Some? && s.url.value + PRESIGN_TTL <= s.now
  }

  lemma SealedStep(cfg: Config, s: Upload, m: Move)
    requires Good(cfg) && Sealed(cfg, s)
    ensures Sealed(cfg, Step(cfg, s, m))
    ensures ORIGINAL in s.env.objs && ORIGINAL in Step(cfg, s, m).env.objs
    ensures Step(cfg, s, m).env.objs[ORIGINAL] == s.env.objs[ORIGINAL]
  {
    StepSafe(cfg, s, m);
    StepGrows(cfg, s, m);
    ClockRuns(cfg, s, m);
    CompleteScheduledStores(cfg, s);
    CompleteScheduledStores(cfg, Step(cfg, s, m));
    if !m.ClientPut? { QuietStep(cfg, s, m); }
  }

  lemma ClockRuns(cfg: Config, s: Upload, m: Move)
    ensures Step(cfg, s, m).now >= s.now
    ensures s.neg.Issued? ==> Step(cfg, s, m).neg.Issued? && Step(cfg, s, m).url == s.url
  {
  }

  lemma {:induction false} SealedRun(cfg: Config, s: Upload, ms: seq<Move>)
    requires Good(cfg) && Sealed(cfg, s)
    ensures Sealed(cfg, Run(cfg, s, ms)) && ORIGINAL in s.env.objs && ORIGINAL in Run(cfg, s, ms).env.objs
    ensures Run(cfg, s, ms).env.objs[ORIGINAL] == s.env.objs[ORIGINAL]
    decreases |ms|
  {
    if ms == [] {
      CompleteScheduledStores(cfg, s);
    } else {
      SealedRun(cfg, s, ms[..|ms| - 1]);
      SealedStep(cfg, Run(cfg, s, ms[..|ms| - 1]), ms[|ms| - 1]);
    }
  }

  // ---- Whether the original can turn from here on ----

  /** The upload still reads `complete`, with every variant as it was, but holds `data` as original. */
  predicate TurnsTo(cfg: Config, ms: seq<Move>, later: seq<Move>, data: Bytes) {
    var s, t := Run(cfg, Begin(), ms), Run(cfg, Begin(), ms + later);
    ReadsComplete(t) && t.env.objs == s.env.objs[ORIGINAL := data]
  }

  /** In any run, an upload that reads `complete` can come to hold any other original, checked or not,
      without its status or its variants changing, if and only if its URL is still live. */
  lemma OriginalCanTurnIff(cfg: Config, ms: seq<Move>, data: Bytes)
    requires Good(cfg) && ReadsComplete(Run(cfg, Begin(), ms))
    requires OriginalOf(Run(cfg, Begin(), ms)) != Some(data)
    ensures (exists later :: TurnsTo(cfg, ms, later, data)) <==> Accepts(Run(cfg, Begin(), ms))
  {
    var s := Run(cfg, Begin(), ms);
    RunSafe(cfg, Begin(), ms);
    if Accepts(s) {
      RunSnoc(cfg, Begin(), ms, ClientPut(data));
      assert TurnsTo(cfg, ms, [ClientPut(data)], data);
    } else {
      CompleteScheduledStores(cfg, s);
      forall later
        ensures !TurnsTo(cfg, ms, later, data)
      {
        RunAppend(cfg, Begin(), ms, later);
        SealedRun(cfg, s, later);
      }
    }
  }

  // ---- It happens ----

  lemma {:induction false} WorkKeepsClock(cfg: Config, s: Upload, ms: seq<Move>)
    requires WorkersOnly(ms)
    ensures Run(cfg, s, ms).now == s.now && Run(cfg, s, ms).url == s.url
    decreases |ms|
  {
    if ms != [] {
      WorkKeepsClock(cfg, s, ms[..|ms| - 1]);
      WorkMove(cfg, Run(cfg, s, ms[..|ms| - 1]), ms[|ms| - 1]);
    }
  }

  lemma WorkMove(cfg: Config, s: Upload, m: Move)
    requires EngineMove(m)
    ensures Step(cfg, s, m).now == s.now && Step(cfg, s, m).url == s.url
  {
  }

  /** From the start of Validate on a good original, a run of the workers that completes. */
  lemma WorkCompletes(cfg: Config, s: Upload, good: Bytes) returns (t: Upload, ms: seq<Move>)
    requires Good(cfg) && |cfg.specs| > 0 && Passes(cfg, good) && Resizable(cfg, good)
    requires JustScheduled(cfg, s, ActValidate, Pending) && s.env.objs == map[ORIGINAL := good]
    ensures WorkersOnly(ms) && Prompt(ms) && t == Run(cfg, s, ms)
    ensures t.wf.Some? && t.wf.value.code == Closed(ActComplete, Nil) && ReadsComplete(t)
  {
    var s1, ms1 := ToProcessingFrom(cfg, s, good);
    ProcessingAwaits(cfg, s1);
    var ms2;
    t, ms2 := ToComplete(cfg, s1, good);
    ms := ms1 + ms2;
    PromptAppend(ms1, ms2);
    WorkersAppend(ms1, ms2);
    RunAppend(cfg, s, ms1, ms2);
  }

  lemma ProcessingAwaits(cfg: Config, s: Upload)
    requires JustScheduled(cfg, s, ActProcessing, Validating) && s.wf.value.code.carry.None?
    ensures s.wf.value.code == Await(ActProcessing, None)
  {
  }

  /** All variants are there, and made from `b`. */
  ghost predicate AllMadeFrom(cfg: Config, t: Upload, b: Bytes) {
    forall i :: 0 <= i < |cfg.specs| ==>
      && cfg.specs[i].name in t.env.objs
      && cfg.resize(b, cfg.specs[i].w, cfg.specs[i].h) == Some(t.env.objs[cfg.specs[i].name])
  }

  predicate ClosedComplete(t: Upload) {
    t.wf.Some? && t.wf.value.code == Closed(ActComplete, Nil) && ReadsComplete(t) && ORIGINAL in t.env.objs
  }

  lemma AllMade(cfg: Config, pre: seq<Move>, ms: seq<Move>)
    requires Good(cfg) && ValidateBegins(Run(cfg, Begin(), pre)) && ReadsComplete(Run(cfg, Begin(), pre + ms))
    requires CallsBeforePut(cfg, Run(cfg, Begin(), pre), ms) <= 2
    ensures var t := Run(cfg, Begin(), pre + ms);
            ORIGINAL in t.env.objs && AllMadeFrom(cfg, t, t.env.objs[ORIGINAL])
  {
    var t := Run(cfg, Begin(), pre + ms);
    CompleteLasts(cfg, pre + ms, []);
    forall i | 0 <= i < |cfg.specs|
      ensures cfg.resize(t.env.objs[ORIGINAL], cfg.specs[i].w, cfg.specs[i].h) == Some(t.env.objs[cfg.specs[i].name])
    {
      OneCheckedOriginal(cfg, pre, ms, i);
    }
  }

  /** A prompt run that completes within the URL's lifetime. */
  lemma GoodCompletes(cfg: Config, good: Bytes) returns (pre: seq<Move>, work: seq<Move>)
    requires Good(cfg) && |cfg.specs| > 0 && Passes(cfg, good) && Resizable(cfg, good)
    ensures Prompt(pre) && Prompt(work) && ValidateBegins(Run(cfg, Begin(), pre))
    ensures var t := Run(cfg, Begin(), pre + work); ClosedComplete(t) && Accepts(t) && AllMadeFrom(cfg, t, good)
  {
    var s := ToValidate(cfg, good);
    pre :| Prompt(pre) && Run(cfg, Begin(), pre) == s;
    var t;
    t, work := WorkCompletes(cfg, s, good);
    WorkKeepsClock(cfg, s, work);
    RunAppend(cfg, Begin(), pre, work);
    AllMadeByWork(cfg, pre, work, good);
  }

  lemma AllMadeByWork(cfg: Config, pre: seq<Move>, work: seq<Move>, good: Bytes)
    requires Good(cfg) && |cfg.specs| > 0 && WorkersOnly(work) && OriginalOf(Run(cfg, Begin(), pre)) == Some(good)
    requires ValidateBegins(Run(cfg, Begin(), pre)) && ReadsComplete(Run(cfg, Begin(), pre + work))
    ensures var t := Run(cfg, Begin(), pre + work); OriginalOf(t) == Some(good) && AllMadeFrom(cfg, t, good)
  {
    NoPutAfter(cfg, Run(cfg, Begin(), pre), [], work);
    assert [] + work == work && NoPut(work);
    AllMade(cfg, pre, work);
    OneCheckedOriginal(cfg, pre, work, 0);
  }

  /** The late PUT: Validate must be left alone for its check to mean anything in the end. A prompt run in
      which one PUT lands after the close ends `complete`, with an original that fails the checks, while
      every variant is that of the original that passed them. */
  lemma CompleteWithUncheckedOriginal(cfg: Config, good: Bytes, bad: Bytes)
    returns (pre: seq<Move>, ms: seq<Move>)
    requires Good(cfg) && |cfg.specs| > 0 && Passes(cfg, good) && Resizable(cfg, good) && !Passes(cfg, bad)
    ensures Prompt(pre + ms) && FailsUnnoticed(cfg, pre, ms, 3)
    ensures var t := Run(cfg, Begin(), pre + ms);
            ClosedComplete(t) && t.env.objs[ORIGINAL] == bad && AllMadeFrom(cfg, t, good)
  {
    var work;
    pre, work := GoodCompletes(cfg, good);
    ms := work + [ClientPut(bad)];
    PutTurns(cfg, Run(cfg, Begin(), pre + work), good, bad);
    LatePutCounts(cfg, pre, work, bad);
    PromptAppend(work, [ClientPut(bad)]);
    PromptAppend(pre, ms);
  }

  lemma PutTurns(cfg: Config, s: Upload, good: Bytes, data: Bytes)
    requires Good(cfg) && Accepts(s) && AllMadeFrom(cfg, s, good)
    ensures Step(cfg, s, ClientPut(data)) == s.(env := s.env.(objs := s.env.objs[ORIGINAL := data]))
    ensures AllMadeFrom(cfg, Step(cfg, s, ClientPut(data)), good)
  {
    assert forall i :: 0 <= i < |cfg.specs| ==> cfg.specs[i].name != ORIGINAL;
  }

  /** A PUT after Validate has succeeded is one after its third call. */
  lemma LatePutCounts(cfg: Config, pre: seq<Move>, work: seq<Move>, data: Bytes)
    requires Good(cfg) && ValidateBegins(Run(cfg, Begin(), pre))
    requires var t := Run(cfg, Begin(), pre + work); Accepts(t) && ReadsComplete(t) && t.wf.Some?
    ensures var s := Run(cfg, Begin(), pre);
            && Run(cfg, Begin(), pre + (work + [ClientPut(data)]))
               == Step(cfg, Run(cfg, Begin(), pre + work), ClientPut(data))
            && CallsBeforePut(cfg, s, work + [ClientPut(data)]) == 3
            && LetThrough(Run(cfg, Begin(), pre + work))
  {
    var s := Run(cfg, Begin(), pre);
    RunAppend(cfg, Begin(), pre, work);
    RunAppend(cfg, Begin(), pre, work + [ClientPut(data)]);
    RunSnoc(cfg, s, work, ClientPut(data));
    JudgedRun(cfg, pre, work);
    CompleteLetThrough(cfg, Run(cfg, s, work));
    PutSnoc(cfg, s, work, ClientPut(data));
  }

  // ---- When the original can have failed unnoticed ----

  /** After `pre`, `ms` lets the upload through Validate, the last PUT having been accepted after `k` of
      Validate's calls, and the original in the store fails the checks. */
  ghost predicate FailsUnnoticed(cfg: Config, pre: seq<Move>, ms: seq<Move>, k: nat) {
    var s, t := Run(cfg, Begin(), pre), Run(cfg, Begin(), pre + ms);
    && ValidateBegins(s) && CallsBeforePut(cfg, s, ms) == k
    && LetThrough(t) && ORIGINAL in t.env.objs && !Passes(cfg, t.env.objs[ORIGINAL])
  }

  lemma {:induction false} NoPutAfter(cfg: Config, s: Upload, ms: seq<Move>, work: seq<Move>)
    requires WorkersOnly(work)
    ensures CallsBeforePut(cfg, s, ms + work) == CallsBeforePut(cfg, s, ms)
    decreases |work|
  {
    if work == [] {
      assert ms + [] == ms;
    } else {
      var k := |work| - 1;
      NoPutAfter(cfg, s, ms, work[..k]);
      assert ms + work == ms + work[..k] + [work[k]];
      PutSnoc(cfg, s, ms + work[..k], work[k]);
    }
  }

  /** A run in which Validate succeeded can hold an original that fails the checks if and only if the last
      PUT was accepted between Validate's sniff and its size check, or after the size check. */
  lemma UncheckedIff(cfg: Config, good: Bytes, bad: Bytes, k: nat)
    requires Good(cfg) && Passes(cfg, good) && !Passes(cfg, bad) && |bad| <= MAX_IMAGE_BYTES
    ensures (exists pre, ms :: FailsUnnoticed(cfg, pre, ms, k)) <==> k == 2 || k == 3
  {
    if k == 2 || k == 3 {
      var s := ToValidate(cfg, good);
      var pre :| Prompt(pre) && Run(cfg, Begin(), pre) == s;
      var ms := PutDuring(cfg, s, good, bad, k);
      RunAppend(cfg, Begin(), pre, ms);
      assert FailsUnnoticed(cfg, pre, ms, k);
    } else {
      forall pre, ms
        ensures !FailsUnnoticed(cfg, pre, ms, k)
      {
        if FailsUnnoticed(cfg, pre, ms, k) {
          RunAppend(cfg, Begin(), pre, ms);
          JudgedRun(cfg, pre, ms);
          PassesUnlessPut(cfg, pre, ms);
        }
      }
    }
  }

  lemma CompleteLetThrough(cfg: Config, t: Upload)
    requires SInv(cfg, t) && t.wf.Some? && ReadsComplete(t)
    ensures LetThrough(t)
  {
    ScheduleExcludes(|cfg.specs|, t.wf.value);
  }

  /** From Validate's success on, whatever the original is: a run of the workers that completes. */
  lemma RestCompletes(cfg: Config, s: Upload, b: Bytes) returns (t: Upload, ms: seq<Move>)
    requires Good(cfg) && |cfg.specs| > 0 && Resizable(cfg, b) && Reach(cfg, s) && s.env.objs == map[ORIGINAL := b]
    requires s.wf.Some? && s.env.row.Some? && StatusOf(s) == Validating
    requires s.wf.value.code.Await? && s.wf.value.code.a.ActValidate? && TaskDue(s.wf.value)
    requires FutOf(s.wf.value.futs, ActValidate) == Finished(1, Ok)
    ensures WorkersOnly(ms) && Prompt(ms) && t == Run(cfg, s, ms)
    ensures t.wf.Some? && t.wf.value.code == Closed(ActComplete, Nil) && ReadsComplete(t)
    ensures ORIGINAL in t.env.objs && t.env.objs[ORIGINAL] == b
  {
    ProcessingStep(cfg, s, b);
    var s1 := Step(cfg, s, RunTask);
    ProcessingAwaits(cfg, s1);
    var rest;
    t, rest := ToComplete(cfg, s1, b);
    ms := [RunTask] + rest;
    RunFirst(cfg, s, RunTask, rest);
    WorkersAppend([RunTask], rest);
    PromptAppend([RunTask], rest);
    ReachSafe(cfg, s);
    OnlyOriginal(cfg, s);
    UnmovedRun(cfg, s, ms);
    assert b in Current(t);
  }

  lemma OnlyOriginal(cfg: Config, s: Upload)
    requires Good(cfg) && SInv(cfg, s) && s.wf.Some? && LetThrough(s) && s.env.objs.Keys == {ORIGINAL}
    requires s.wf.value.code.Await? && s.wf.value.code.a.ActValidate?
    ensures From(cfg, Current(s), s) && Current(s) == {s.env.objs[ORIGINAL]}
  {
    forall i: nat
      ensures !Begun(FutOf(s.wf.value.futs, ActResize(i)))
    {
      assert !Scheduled(|cfg.specs|, s.wf.value.code, ActResize(i));
    }
    NothingMade(cfg, s);
  }

  /** The race: one PUT between the two checks makes Validate succeed although neither object passes both.
      A prompt run then ends `complete`, with an original of a type that was refused, and every variant
      made from it. */
  lemma RaceCompletes(cfg: Config, good: Bytes, bad: Bytes) returns (pre: seq<Move>, ms: seq<Move>)
    requires Good(cfg) && |cfg.specs| > 0 && Passes(cfg, good)
    requires !Passes(cfg, bad) && |bad| <= MAX_IMAGE_BYTES && Resizable(cfg, bad)
    ensures Prompt(pre + ms) && FailsUnnoticed(cfg, pre, ms, 2)
    ensures var t := Run(cfg, Begin(), pre + ms);
            ClosedComplete(t) && t.env.objs[ORIGINAL] == bad && AllMadeFrom(cfg, t, bad)
  {
    var s := ToValidate(cfg, good);
    pre :| Prompt(pre) && Run(cfg, Begin(), pre) == s;
    var race := PutDuring(cfg, s, good, bad, 2);
    ReachRun(cfg, s, race);
    var t, work := RestCompletes(cfg, Run(cfg, s, race), bad);
    ms := race + work;
    RunAppend(cfg, s, race, work);
    RunAppend(cfg, Begin(), pre, ms);
    NoPutAfter(cfg, s, race, work);
    PromptAppend(race, work);
    PromptAppend(pre, ms);
    RunSafe(cfg, Begin(), pre + ms);
    CompleteLetThrough(cfg, t);
    AllMade(cfg, pre, ms);
  }

  /** The same of an upload that reads `complete`. */
  lemma CompleteUncheckedIff(cfg: Config, good: Bytes, bad: Bytes, k: nat)
    requires Good(cfg) && |cfg.specs| > 0 && Passes(cfg, good) && Resizable(cfg, good)
    requires !Passes(cfg, bad) && |bad| <= MAX_IMAGE_BYTES && Resizable(cfg, bad)
    ensures (exists pre, ms :: FailsUnnoticed(cfg, pre, ms, k) && ReadsComplete(Run(cfg, Begin(), pre + ms)))
            <==> k == 2 || k == 3
  {
    UncheckedIff(cfg, good, bad, k);
    if k == 2 {
      var pre, ms := RaceCompletes(cfg, good, bad);
    } else if k == 3 {
      var pre, ms := CompleteWithUncheckedOriginal(cfg, good, bad);
    }
  }
}
