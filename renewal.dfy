/**
 * controllers/renewal_event.go: the background sweep that finds secrets due for renewal and
 * raises a synthetic event for each one's owning ECRSecret, and the loop that schedules it.
 */
module RenewalEvent {
  import opened Wrappers
  import opened GoTime
  import opened GoLib
  import opened Kube
  import opened KSecret

  /** The poller's state that the sweep reads: its maximum secret age. */
  datatype RenewalEvent = RenewalEvent(maxAge: int)

  /** CreateRenewalEvent never assigns maxAge, so the sweep runs with Go's zero Duration. */
  function CreateRenewalEvent(): (t: RenewalEvent)
    ensures t.maxAge == 0
  {
    RenewalEvent(0)
  }

  /**
   * With the default poller, a managed and owned secret is due for the sweep as soon as `now`
   * passes expires - lifetime, which is within 30 seconds of the instant its token was fetched.
   */
  lemma DefaultSweepHorizon(lib: Lib, s: Secret, now: int)
    requires RenewalHorizon(lib, s, CreateRenewalEvent().maxAge).Some?
    requires s.ownerReferences.Some?
    ensures IsExpired(lib, s, CreateRenewalEvent().maxAge, now)
        <==> now > lib.parseTime(s.annotations[AnnotationExpires]).value - lib.parseDuration(s.annotations[AnnotationLifetime]).value
  {
  }

  /** The namespace List call: the namespaces, the cache-not-started error, or any other error. */
  datatype NamespaceList = Namespaces(names: seq<string>) | CacheNotStarted | ListFailed(error: Error)

  /** The cluster as the sweep's client sees it. */
  datatype Cluster = Cluster(
    namespaces: NamespaceList,
    secretsIn: string -> Result<seq<Secret>, Error>,
    getEcrSecret: Key -> GetReply<EcrSecret>)

  /** What one listed secret contributes to the sweep. */
  datatype Verdict = Skip | Emit(owner: EcrSecret) | Crash

  /**
   * The checks of the inner loop body: the type filter, IsExpired, the read of the first owner
   * reference (a crash on a nil or empty list), and the owner lookup in the secret's namespace.
   */
  function Visit(lib: Lib, c: Cluster, maxAge: int, now: int, s: Secret): Verdict {
    if s.secretType != DockerConfigJsonType then Skip
    else if !IsExpired(lib, s, maxAge, now) then Skip
    else if s.ownerReferences.None? || |s.ownerReferences.value| == 0 then Crash
    else match c.getEcrSecret(Key(s.namespace, s.ownerReferences.value[0].name))
      case Found(e) => Emit(e)
      case _ => Skip
  }

  /** The events sent so far, and whether the sweep has panicked (after which nothing is sent). */
  datatype Scan = Scan(events: seq<EcrSecret>, panicked: bool)

  const Nothing: Scan := Scan([], false)

  /** Running `q` after `p`: nothing after a panic, events in order otherwise. */
  function Then(p: Scan, q: Scan): (r: Scan)
    ensures p.panicked ==> r == p
    ensures !p.panicked ==> r.events == p.events + q.events && r.panicked == q.panicked
  {
    if p.panicked then p else Scan(p.events + q.events, q.panicked)
  }

  function VisitScan(v: Verdict): Scan {
    match v
    case Skip => Nothing
    case Emit(e) => Scan([e], false)
    case Crash => Scan([], true)
  }

  /** The reference sweep of one namespace's secret list, in list order. */
  function ScanSecrets(lib: Lib, c: Cluster, maxAge: int, now: int, ss: seq<Secret>): Scan {
    if ss == [] then Nothing
    else Then(ScanSecrets(lib, c, maxAge, now, ss[..|ss| - 1]), VisitScan(Visit(lib, c, maxAge, now, ss[|ss| - 1])))
  }

  /** One namespace: nothing when its secrets cannot be listed. */
  function ScanNamespace(lib: Lib, c: Cluster, maxAge: int, now: int, ns: string): Scan {
    match c.secretsIn(ns)
    case Failure(_) => Nothing
    case Success(ss) => ScanSecrets(lib, c, maxAge, now, ss)
  }

  /** The reference sweep over a namespace list, in list order. */
  function ScanNamespaces(lib: Lib, c: Cluster, maxAge: int, now: int, names: seq<string>): Scan {
    if names == [] then Nothing
    else Then(ScanNamespaces(lib, c, maxAge, now, names[..|names| - 1]), ScanNamespace(lib, c, maxAge, now, names[|names| - 1]))
  }

  /** How pollSecrets ends: returning an error or nil, or panicking. */
  datatype PollResult = Returned(err: Option<Error>) | Panicked

  /**
   * pollSecrets at time `now`, with the events sent on the channel collected in order. A
   * cache that has not started is a quiet success and any other namespace-list error is
   * returned, both with no events; otherwise the events are the reference sweep's, and the poll
   * panics exactly when the sweep does, keeping what it sent before.
   */
  method PollSecrets(lib: Lib, t: RenewalEvent, c: Cluster, now: int) returns (result: PollResult, events: seq<EcrSecret>)
    ensures c.namespaces.CacheNotStarted? ==> result == Returned(None) && events == []
    ensures c.namespaces.ListFailed? ==> result == Returned(Some(c.namespaces.error)) && events == []
    ensures c.namespaces.Namespaces? ==>
      var scan := ScanNamespaces(lib, c, t.maxAge, now, c.namespaces.names);
      events == scan.events && (result == Panicked <==> scan.panicked) && (!scan.panicked ==> result == Returned(None))
  {
    if c.namespaces.CacheNotStarted? {
      return Returned(None), [];
    }
    if c.namespaces.ListFailed? {
      return Returned(Some(c.namespaces.error)), [];
    }
    var names := c.namespaces.names;
    events := [];
    var i := 0;
    while i < |names|
      invariant 0 <= i <= |names|
      invariant ScanNamespaces(lib, c, t.maxAge, now, names[..i]) == Scan(events, false)
    {
      assert names[..i + 1][..i] == names[..i];
      var listed := c.secretsIn(names[i]);
      if listed.Failure? {
        assert events + [] == events;
        i := i + 1;
        continue;
      }
      var sent, panicked := SweepSecrets(lib, t, c, now, listed.value);
      events := events + sent;
      if panicked {
        NamespacePanicStops(lib, c, t.maxAge, now, names, i + 1);
        return Panicked, events;
      }
      i := i + 1;
    }
    assert names[..|names|] == names;
    return Returned(None), events;
  }

  /**
   * The inner loop over one namespace's secrets: the events it sends, and whether it panicked,
   * are those of the reference scan of the list.
   */
  method SweepSecrets(lib: Lib, t: RenewalEvent, c: Cluster, now: int, ss: seq<Secret>) returns (sent: seq<EcrSecret>, panicked: bool)
    ensures Scan(sent, panicked) == ScanSecrets(lib, c, t.maxAge, now, ss)
  {
    sent := [];
    var j := 0;
    while j < |ss|
      invariant 0 <= j <= |ss|
      invariant ScanSecrets(lib, c, t.maxAge, now, ss[..j]) == Scan(sent, false)
    {
      assert ss[..j + 1][..j] == ss[..j];
      assert sent + [] == sent;
      var secret := ss[j];
      if secret.secretType != DockerConfigJsonType {
        j := j + 1;
        continue;
      }
      if IsExpired(lib, secret, t.maxAge, now) {
        if secret.ownerReferences.None? || |secret.ownerReferences.value| == 0 {
          PanicStopsScan(lib, c, t.maxAge, now, ss, j + 1);
          return sent, true;
        }
        var owner := secret.ownerReferences.value[0];
        var got := c.getEcrSecret(Key(secret.namespace, owner.name));
        if got.Found? {
          sent := sent + [got.value];
        }
      }
      j := j + 1;
    }
    assert ss[..|ss|] == ss;
    return sent, false;
  }

  /** Once a prefix of a secret list panics, the whole list's scan is that prefix's. */
  lemma {:induction false} PanicStopsScan(lib: Lib, c: Cluster, maxAge: int, now: int, ss: seq<Secret>, k: nat)
    requires k <= |ss|
    requires ScanSecrets(lib, c, maxAge, now, ss[..k]).panicked
    ensures ScanSecrets(lib, c, maxAge, now, ss) == ScanSecrets(lib, c, maxAge, now, ss[..k])
    decreases |ss| - k
  {
    if k < |ss| {
      assert ss[..|ss| - 1][..k] == ss[..k];
      PanicStopsScan(lib, c, maxAge, now, ss[..|ss| - 1], k);
    } else {
      assert ss[..k] == ss;
    }
  }

  /** Once a prefix of a namespace list panics, the whole sweep is that prefix's. */
  lemma {:induction false} NamespacePanicStops(lib: Lib, c: Cluster, maxAge: int, now: int, names: seq<string>, k: nat)
    requires k <= |names|
    requires ScanNamespaces(lib, c, maxAge, now, names[..k]).panicked
    ensures ScanNamespaces(lib, c, maxAge, now, names) == ScanNamespaces(lib, c, maxAge, now, names[..k])
    decreases |names| - k
  {
    if k < |names| {
      assert names[..|names| - 1][..k] == names[..k];
      NamespacePanicStops(lib, c, maxAge, now, names[..|names| - 1], k);
    } else {
      assert names[..k] == names;
    }
  }

  lemma ThenAssociative(p: Scan, q: Scan, r: Scan)
    ensures Then(Then(p, q), r) == Then(p, Then(q, r))
  {
    if !p.panicked && !q.panicked {
      assert p.events + q.events + r.events == p.events + (q.events + r.events);
    }
  }

  lemma ThenNothing(p: Scan)
    ensures Then(p, Nothing) == p && Then(Nothing, p) == p
  {
    assert p.events + [] == p.events;
    assert [] + p.events == p.events;
  }

  /** Sweeping a list is sweeping its two halves one after the other. */
  lemma {:induction false} ScanSecretsAppend(lib: Lib, c: Cluster, maxAge: int, now: int, a: seq<Secret>, b: seq<Secret>)
    ensures ScanSecrets(lib, c, maxAge, now, a + b)
         == Then(ScanSecrets(lib, c, maxAge, now, a), ScanSecrets(lib, c, maxAge, now, b))
    decreases |b|
  {
    if b == [] {
      assert a + b == a;
      ThenNothing(ScanSecrets(lib, c, maxAge, now, a));
    } else {
      var b' := b[..|b| - 1];
      assert (a + b)[..|a + b| - 1] == a + b';
      assert (a + b)[|a + b| - 1] == b[|b| - 1];
      ScanSecretsAppend(lib, c, maxAge, now, a, b');
      ThenAssociative(ScanSecrets(lib, c, maxAge, now, a), ScanSecrets(lib, c, maxAge, now, b'),
                      VisitScan(Visit(lib, c, maxAge, now, b[|b| - 1])));
    }
  }

  /** Sweeping a namespace list is sweeping its two halves one after the other. */
  lemma {:induction false} ScanNamespacesAppend(lib: Lib, c: Cluster, maxAge: int, now: int, a: seq<string>, b: seq<string>)
    ensures ScanNamespaces(lib, c, maxAge, now, a + b)
         == Then(ScanNamespaces(lib, c, maxAge, now, a), ScanNamespaces(lib, c, maxAge, now, b))
    decreases |b|
  {
    if b == [] {
      assert a + b == a;
      ThenNothing(ScanNamespaces(lib, c, maxAge, now, a));
    } else {
      var b' := b[..|b| - 1];
      assert (a + b)[..|a + b| - 1] == a + b';
      assert (a + b)[|a + b| - 1] == b[|b| - 1];
      ScanNamespacesAppend(lib, c, maxAge, now, a, b');
      ThenAssociative(ScanNamespaces(lib, c, maxAge, now, a), ScanNamespaces(lib, c, maxAge, now, b'),
                      ScanNamespace(lib, c, maxAge, now, b[|b| - 1]));
    }
  }

  /**
   * Events come out in namespace order: when the first part of the namespace list does not
   * panic, its events precede all of the rest's.
   */
  lemma EventsInNamespaceOrder(lib: Lib, c: Cluster, maxAge: int, now: int, a: seq<string>, b: seq<string>)
    requires !ScanNamespaces(lib, c, maxAge, now, a).panicked
    ensures ScanNamespaces(lib, c, maxAge, now, a + b).events
         == ScanNamespaces(lib, c, maxAge, now, a).events + ScanNamespaces(lib, c, maxAge, now, b).events
  {
    ScanNamespacesAppend(lib, c, maxAge, now, a, b);
  }

  /** A namespace whose secrets cannot be listed is skipped; the sweep carries on with the next. */
  lemma FailedNamespaceIsSkipped(lib: Lib, c: Cluster, maxAge: int, now: int, a: seq<string>, ns: string, b: seq<string>)
    requires c.secretsIn(ns).Failure?
    ensures ScanNamespaces(lib, c, maxAge, now, a + [ns] + b) == ScanNamespaces(lib, c, maxAge, now, a + b)
  {
    ScanNamespacesAppend(lib, c, maxAge, now, a + [ns], b);
    ScanNamespacesAppend(lib, c, maxAge, now, a, [ns]);
    ScanNamespacesAppend(lib, c, maxAge, now, a, b);
    assert [ns][..0] == [];
    ThenNothing(ScanNamespaces(lib, c, maxAge, now, a));
  }

  /**
   * A secret whose verdict is Skip (not of the dockerconfigjson type, not expired, or whose
   * owner cannot be fetched) leaves the sweep exactly as if it were not listed.
   */
  lemma SkippedSecretIsInvisible(lib: Lib, c: Cluster, maxAge: int, now: int, a: seq<Secret>, s: Secret, b: seq<Secret>)
    requires Visit(lib, c, maxAge, now, s).Skip?
    ensures ScanSecrets(lib, c, maxAge, now, a + [s] + b) == ScanSecrets(lib, c, maxAge, now, a + b)
  {
    ScanSecretsAppend(lib, c, maxAge, now, a + [s], b);
    ScanSecretsAppend(lib, c, maxAge, now, a, [s]);
    ScanSecretsAppend(lib, c, maxAge, now, a, b);
    assert [s][..0] == [];
    ThenNothing(ScanSecrets(lib, c, maxAge, now, a));
  }

  /** Only the dockerconfigjson type is looked at. */
  lemma OtherTypesAreSkipped(lib: Lib, c: Cluster, maxAge: int, now: int, s: Secret)
    requires s.secretType != DockerConfigJsonType
    ensures Visit(lib, c, maxAge, now, s) == Skip
  {
  }

  /** An event names the ECRSecret found under the first owner's name, in the secret's namespace. */
  lemma EmitIff(lib: Lib, c: Cluster, maxAge: int, now: int, s: Secret, e: EcrSecret)
    ensures Visit(lib, c, maxAge, now, s) == Emit(e) <==>
      && s.secretType == DockerConfigJsonType
      && IsExpired(lib, s, maxAge, now)
      && s.ownerReferences.Some? && |s.ownerReferences.value| > 0
      && c.getEcrSecret(Key(s.namespace, s.ownerReferences.value[0].name)) == Found(e)
  {
  }

  /** A sweep of a list panics exactly when one of its secrets crashes the inner loop. */
  lemma {:induction false} PanicIff(lib: Lib, c: Cluster, maxAge: int, now: int, ss: seq<Secret>)
    ensures ScanSecrets(lib, c, maxAge, now, ss).panicked
        <==> exists k :: 0 <= k < |ss| && Visit(lib, c, maxAge, now, ss[k]).Crash?
  {
    if ss != [] {
      var init := ss[..|ss| - 1];
      PanicIff(lib, c, maxAge, now, init);
      if exists k :: 0 <= k < |ss| && Visit(lib, c, maxAge, now, ss[k]).Crash? {
        var k :| 0 <= k < |ss| && Visit(lib, c, maxAge, now, ss[k]).Crash?;
        if k < |ss| - 1 {
          assert init[k] == ss[k];
        }
      }
      forall k | 0 <= k < |init| ensures init[k] == ss[k] {
      }
    }
  }

  /**
   * The events of a sweep that does not panic are exactly the owners of the secrets whose
   * verdict is Emit.
   */
  lemma {:induction false} EventsIff(lib: Lib, c: Cluster, maxAge: int, now: int, ss: seq<Secret>, e: EcrSecret)
    requires !ScanSecrets(lib, c, maxAge, now, ss).panicked
    ensures e in ScanSecrets(lib, c, maxAge, now, ss).events
        <==> exists k :: 0 <= k < |ss| && Visit(lib, c, maxAge, now, ss[k]) == Emit(e)
  {
    if ss != [] {
      var init := ss[..|ss| - 1];
      EventsIff(lib, c, maxAge, now, init, e);
      forall k | 0 <= k < |init| ensures init[k] == ss[k] {
      }
      if exists k :: 0 <= k < |ss| && Visit(lib, c, maxAge, now, ss[k]) == Emit(e) {
        var k :| 0 <= k < |ss| && Visit(lib, c, maxAge, now, ss[k]) == Emit(e);
        if k < |ss| - 1 {
          assert init[k] == ss[k];
        }
      }
    }
  }

  /**
   * The events sent before a crash are kept: with no crash in `a`, a crashing secret ends the
   * sweep with `a`'s events whatever follows it.
   */
  lemma CrashKeepsEarlierEvents(lib: Lib, c: Cluster, maxAge: int, now: int, a: seq<Secret>, s: Secret, b: seq<Secret>)
    requires !ScanSecrets(lib, c, maxAge, now, a).panicked
    requires Visit(lib, c, maxAge, now, s).Crash?
    ensures ScanSecrets(lib, c, maxAge, now, a + [s] + b) == Scan(ScanSecrets(lib, c, maxAge, now, a).events, true)
  {
    ScanSecretsAppend(lib, c, maxAge, now, a + [s], b);
    ScanSecretsAppend(lib, c, maxAge, now, a, [s]);
    assert [s][..0] == [];
    ThenNothing(VisitScan(Visit(lib, c, maxAge, now, s)));
    assert ScanSecrets(lib, c, maxAge, now, a).events + [] == ScanSecrets(lib, c, maxAge, now, a).events;
  }

  /**
   * A docker secret with no owner slice whose expires annotation does not parse is judged
   * expired by the fail-safe path and then crashes the sweep on the owner read.
   */
  lemma OwnerlessMalformedCrashes(lib: Lib, c: Cluster, maxAge: int, now: int, s: Secret)
    requires s.secretType == DockerConfigJsonType && s.ownerReferences.None?
    requires AnnotationExpires in s.annotations && lib.parseTime(s.annotations[AnnotationExpires]).None?
    ensures Visit(lib, c, maxAge, now, s) == Crash
  {
  }

  /** A non-nil but empty owner slice passes IsExpired's owner test and crashes the sweep past the horizon. */
  lemma EmptyOwnersCrashPastHorizon(lib: Lib, c: Cluster, maxAge: int, now: int, s: Secret)
    requires s.secretType == DockerConfigJsonType && s.ownerReferences == Some([])
    requires RenewalHorizon(lib, s, maxAge).Some? && now > RenewalHorizon(lib, s, maxAge).value
    ensures Visit(lib, c, maxAge, now, s) == Crash
  {
  }

  /** One pass of Run's loop: the clock when the pass starts, and again when its poll returns. */
  datatype Tick = Tick(now: int, finished: int)

  /**
   * nextRun after a run of passes, starting from the clock reading `start`: a pass whose clock
   * is strictly after nextRun polls and moves nextRun to a minute after the poll returned.
   */
  function NextRun(start: int, ticks: seq<Tick>): int {
    if ticks == [] then start
    else
      var n := NextRun(start, ticks[..|ticks| - 1]);
      var t := ticks[|ticks| - 1];
      if t.now > n then t.finished + Minute else n
  }

  /** Whether the pass at index `i` polls. */
  predicate Polls(start: int, ticks: seq<Tick>, i: int)
    requires 0 <= i < |ticks|
  {
    ticks[i].now > NextRun(start, ticks[..i])
  }

  /**
   * Run over a finite run of passes: which passes poll, and nextRun at the end. Poll errors are
   * only logged, so they do not change the schedule.
   */
  method Run(start: int, ticks: seq<Tick>) returns (polled: seq<bool>, nextRun: int)
    ensures |polled| == |ticks|
    ensures forall i :: 0 <= i < |ticks| ==> (polled[i] <==> Polls(start, ticks, i))
    ensures nextRun == NextRun(start, ticks)
  {
    nextRun := start;
    polled := [];
    var i := 0;
    while i < |ticks|
      invariant 0 <= i <= |ticks| && |polled| == i
      invariant nextRun == NextRun(start, ticks[..i])
      invariant forall k :: 0 <= k < i ==> (polled[k] <==> Polls(start, ticks, k))
    {
      assert ticks[..i + 1][..i] == ticks[..i];
      var poll := ticks[i].now > nextRun;
      if poll {
        nextRun := ticks[i].finished + Minute;
      }
      polled := polled + [poll];
      i := i + 1;
    }
    assert ticks[..|ticks|] == ticks;
  }

  /** A clock that does not run backwards within a pass. */
  ghost predicate Monotone(ticks: seq<Tick>) {
    forall k :: 0 <= k < |ticks| ==> ticks[k].now <= ticks[k].finished
  }

  /** nextRun never moves backwards. */
  lemma {:induction false} NextRunNondecreasing(start: int, ticks: seq<Tick>, i: nat, j: nat)
    requires Monotone(ticks) && i <= j <= |ticks|
    ensures NextRun(start, ticks[..i]) <= NextRun(start, ticks[..j])
    decreases j - i
  {
    if i < j {
      NextRunNondecreasing(start, ticks, i, j - 1);
      assert ticks[..j][..j - 1] == ticks[..j - 1];
      assert ticks[..j][j - 1] == ticks[j - 1];
    }
  }

  /** Two polls are more than a minute apart, measured from the start of the earlier one. */
  lemma PollsSpacedByMinute(start: int, ticks: seq<Tick>, i: nat, j: nat)
    requires Monotone(ticks) && i < j < |ticks|
    requires Polls(start, ticks, i) && Polls(start, ticks, j)
    ensures ticks[j].now > ticks[i].finished + Minute >= ticks[i].now + Minute
  {
    NextRunNondecreasing(start, ticks, i + 1, j);
    assert ticks[..i + 1][..i] == ticks[..i];
    assert ticks[..i + 1][i] == ticks[i];
  }

  /** The first pass polls exactly when the clock has moved since Run started. */
  lemma FirstPassPolls(start: int, ticks: seq<Tick>)
    requires |ticks| > 0
    ensures Polls(start, ticks, 0) <==> ticks[0].now > start
  {
  }
}
