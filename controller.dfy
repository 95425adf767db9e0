/**
 * controllers/ecrsecret_controller.go: the ECRSecret reconciler. The cluster client, the
 * configuration file, the AWS session and the token service are an environment of replies
 * (`Env`); Reconcile returns its outcome together with the client calls it made, in order.
 */
module EcrSecretController {
  import opened Wrappers
  import opened GoStrings
  import opened Uuids
  import opened GoLib
  import opened Kube
  import opened KSecret
  import opened Config
  import opened EcrSecretKubeSecret

  /**
   * The reconciler's account id and region: dot-separated fields 0 and 3 of the registry host.
   * None where the Go closure indexes past the end of the split and panics.
   */
  function SplitRegistry(registry: string): Option<(string, string)> {
    var fields := Split(registry, '.');
    if |fields| < 4 then None else Some((fields[0], fields[3]))
  }

  /** An ECR registry host `<account>.dkr.ecr.<region>.amazonaws.com` yields its account and region. */
  lemma RegistryFields(account: string, region: string)
    requires '.' !in account && '.' !in region
    ensures SplitRegistry(account + ".dkr.ecr." + region + ".amazonaws.com") == Some((account, region))
  {
    var t3 := "amazonaws" + ['.'] + "com";
    var t2 := region + ['.'] + t3;
    var t1 := "ecr" + ['.'] + t2;
    var t0 := "dkr" + ['.'] + t1;
    assert account + ".dkr.ecr." + region + ".amazonaws.com" == account + ['.'] + t0;
    SplitNoSep("com", '.');
    SplitAtFirstSep("amazonaws", '.', "com");
    SplitAtFirstSep(region, '.', t3);
    SplitAtFirstSep("ecr", '.', t2);
    SplitAtFirstSep("dkr", '.', t1);
    SplitAtFirstSep(account, '.', t0);
  }

  /** A registry with no dot at all (an empty string included) has one field: the closure panics. */
  lemma DotlessRegistryPanics(registry: string)
    requires '.' !in registry
    ensures SplitRegistry(registry) == None
  {
    SplitNoSep(registry, '.');
  }

  /** A registry outside ECR such as "docker.io" has only two fields: the closure panics. */
  lemma DockerHubRegistryPanics()
    ensures SplitRegistry("docker.io") == None
  {
    assert "docker.io" == "docker" + ['.'] + "io";
    SplitAtFirstSep("docker", '.', "io");
    SplitNoSep("io", '.');
  }

  /** The registry the operator's tests use. */
  lemma TestRegistryFields()
    ensures SplitRegistry("123456789012.dkr.ecr.eu-west-1.amazonaws.com") == Some(("123456789012", "eu-west-1"))
  {
    var account, region := "123456789012", "eu-west-1";
    assert '.' !in account by {
      forall i | 0 <= i < |account| ensures account[i] != '.' {
      }
    }
    assert '.' !in region by {
      forall i | 0 <= i < |region| ensures region[i] != '.' {
      }
    }
    RegistryFields(account, region);
    assert account + ".dkr.ecr." + region + ".amazonaws.com" == "123456789012.dkr.ecr.eu-west-1.amazonaws.com";
  }

  /** ctrl.Result */
  datatype CtrlResult = CtrlResult(requeue: bool, requeueAfter: int)

  const EmptyResult: CtrlResult := CtrlResult(false, 0)

  /** How a reconciliation ends: a return to the controller, os.Exit, or a runtime panic. */
  datatype Outcome = Return(result: CtrlResult, err: Option<Error>) | Exit(code: int, message: string) | Panicked

  /** The cluster-client calls Reconcile makes. */
  datatype ClientCall = FetchEcrSecret(key: Key) | FetchSecret(key: Key) | Create(secret: Secret) | Update(secret: Secret)

  /**
   * What the outside world answers during one reconciliation: the client's Get, Create and
   * Update; os.Open of the configuration file and its TOML decoding; Auth.SetCredentials; the
   * token fetch; and whether SetControllerReference fails.
   */
  datatype Env = Env(
    getEcrSecret: Key -> GetReply<EcrSecret>,
    getSecret: Key -> GetReply<Secret>,
    create: Secret -> Option<Error>,
    update: Secret -> Option<Error>,
    configOpen: Option<Error>,
    configDecode: Result<Configuration, Error>,
    setCredentials: (Credentials, string) -> Option<Error>,
    token: Result<AuthData, Error>,
    setOwnerReference: Option<Error>)

  /** ECRSecretReconciler's settings. */
  datatype Reconciler = Reconciler(configFile: string, maxAge: int)

  /** Where the steps before the owned-secret lookup leave a reconciliation. */
  datatype Stage =
    | Deleted
    | FetchFailed(error: Error)
    | MalformedRegistry
    | ConfigUnreadable
    | CredentialsInvalid(message: string)
    | SessionFailed(error: Error)
    | Ready(ecrSecret: EcrSecret)

  /**
   * The reference decision for those steps: fetch the resource, split its registry, open the
   * configuration, choose the account's credentials, and set up the AWS session for the region.
   */
  function Preflight(env: Env, req: Key): Stage {
    match env.getEcrSecret(req)
    case NotFound => Deleted
    case Failed(e) => FetchFailed(e)
    case Found(ecr) =>
      match SplitRegistry(ecr.registry)
      case None => MalformedRegistry
      case Some(parts) =>
        if env.configOpen.Some? then ConfigUnreadable
        else if env.configDecode.Failure? then CredentialsInvalid(env.configDecode.error)
        else
          var chosen := CredentialsFor(env.configDecode.value, parts.0);
          if chosen.0.None? then CredentialsInvalid(chosen.1.value)
          else if env.setCredentials(chosen.0.value, parts.1).Some? then SessionFailed(env.setCredentials(chosen.0.value, parts.1).value)
          else Ready(ecr)
  }

  /** How Reconcile ends when it stops before the owned-secret lookup. */
  function EarlyOutcome(r: Reconciler, stage: Stage): Outcome {
    match stage
    case Deleted => Return(EmptyResult, None)
    case FetchFailed(e) => Return(EmptyResult, Some(e))
    case MalformedRegistry => Panicked
    case ConfigUnreadable => Exit(1, "FATAL: Cannot load '" + r.configFile + "'.")
    case CredentialsInvalid(m) => Exit(1, m)
    case SessionFailed(e) => Return(EmptyResult, Some(e))
    case Ready(_) => Return(EmptyResult, None)
  }

  /** The key the owned secret is looked up and created under. */
  function OwnedSecretKey(ecr: EcrSecret): Key {
    Key(ecr.namespace, GetKubeSecretName(ecr))
  }

  /** Whether Reconcile regenerates a secret it found: drifted, or expired under maxAge. */
  predicate Due(lib: Lib, r: Reconciler, s: Secret, now: int) {
    IsChanged(lib, s) || IsExpired(lib, s, r.maxAge, now)
  }

  /**
   * The reference behaviour once the session is ready, given the outcome and the writes made
   * after the owned-secret lookup: a lookup error is returned; an absent secret is built,
   * stamped and created; a found one is regenerated and updated only when due; errors of the
   * token fetch, the owner reference and the write are returned.
   */
  ghost predicate OwnedSecretSynced(lib: Lib, r: Reconciler, env: Env, ecr: EcrSecret, now: int, outcome: Outcome, writes: seq<ClientCall>) {
    match env.getSecret(OwnedSecretKey(ecr))
    case Failed(e) => writes == [] && outcome == Return(EmptyResult, Some(e))
    case NotFound =>
      if env.token.Failure? then writes == [] && outcome == Return(EmptyResult, Some(env.token.error))
      else if env.setOwnerReference.Some? then writes == [] && outcome == Return(EmptyResult, env.setOwnerReference)
      else
        var c := Stamp(lib, NewSecret(ecr, GetSecretData(lib, env.token, now).value));
        writes == [Create(c)] && outcome == Return(EmptyResult, env.create(c))
    case Found(s) =>
      if !Due(lib, r, s, now) then writes == [] && outcome == Return(EmptyResult, None)
      else if env.token.Failure? then writes == [] && outcome == Return(EmptyResult, Some(env.token.error))
      else
        var u := Regenerate(lib, s, GetSecretData(lib, env.token, now).value);
        writes == [Update(u)] && outcome == Return(EmptyResult, env.update(u))
  }

  /** The NotFound branch of Reconcile: build the missing secret, stamp its uid and create it. */
  method CreateOwnedSecret(lib: Lib, env: Env, ecr: EcrSecret, now: int) returns (outcome: Outcome, writes: seq<ClientCall>)
    ensures env.token.Failure? ==> writes == [] && outcome == Return(EmptyResult, Some(env.token.error))
    ensures env.token.Success? && env.setOwnerReference.Some? ==>
      writes == [] && outcome == Return(EmptyResult, env.setOwnerReference)
    ensures env.token.Success? && env.setOwnerReference.None? ==>
      var c := Stamp(lib, NewSecret(ecr, GetSecretData(lib, env.token, now).value));
      writes == [Create(c)] && outcome == Return(EmptyResult, env.create(c))
  {
    var secret, err := ConstructSecret(lib, ecr, env.token, now, env.setOwnerReference);
    if err.Some? {
      return Return(EmptyResult, err), [];
    }
    ghost var built := secret.Value();
    var id := GetSecretUuid(lib, secret.Value());
    secret.annotations := secret.annotations[AnnotationUid := Format(id)];
    assert secret.Value() == Stamp(lib, built);
    writes := [Create(secret.Value())];
    err := env.create(secret.Value());
    return Return(EmptyResult, err), writes;
  }

  /** The found-and-due branch of Reconcile: regenerate and update a found secret that is due. */
  method RefreshOwnedSecret(lib: Lib, r: Reconciler, env: Env, found: Secret, now: int) returns (outcome: Outcome, writes: seq<ClientCall>)
    ensures !Due(lib, r, found, now) ==> writes == [] && outcome == Return(EmptyResult, None)
    ensures Due(lib, r, found, now) && env.token.Failure? ==>
      writes == [] && outcome == Return(EmptyResult, Some(env.token.error))
    ensures Due(lib, r, found, now) && env.token.Success? ==>
      var u := Regenerate(lib, found, GetSecretData(lib, env.token, now).value);
      writes == [Update(u)] && outcome == Return(EmptyResult, env.update(u))
  {
    var foundSecret := new SecretObject(found);
    var err := None;
    writes := [];
    if IsChanged(lib, foundSecret.Value()) || IsExpired(lib, foundSecret.Value(), r.maxAge, now) {
      err := UpdateSecret(lib, env.token, foundSecret, now);
      if err.None? {
        writes := [Update(foundSecret.Value())];
        err := env.update(foundSecret.Value());
      }
    }
    return Return(EmptyResult, err), writes;
  }

  /** The part of Reconcile after the session is set up: look up the owned secret and act on it. */
  method SyncOwnedSecret(lib: Lib, r: Reconciler, env: Env, ecr: EcrSecret, now: int) returns (outcome: Outcome, writes: seq<ClientCall>)
    ensures OwnedSecretSynced(lib, r, env, ecr, now, outcome, writes)
  {
    var found := env.getSecret(OwnedSecretKey(ecr));
    match found
    case NotFound =>
      outcome, writes := CreateOwnedSecret(lib, env, ecr, now);
    case Found(s) =>
      outcome, writes := RefreshOwnedSecret(lib, r, env, s, now);
    case Failed(e) =>
      outcome, writes := Return(EmptyResult, Some(e)), [];
  }

  /**
   * Reconcile at time `now` for the request `req`. It never asks to be requeued; it exits the
   * process only on an unreadable configuration or unusable credentials; it creates the owned
   * secret (stamped with its uid) when absent and updates it (regenerated) only when drifted or
   * expired; any error a step reports is returned.
   */
  method Reconcile(lib: Lib, r: Reconciler, env: Env, req: Key, now: int) returns (outcome: Outcome, calls: seq<ClientCall>)
    ensures outcome.Return? ==> outcome.result == EmptyResult
    ensures outcome.Exit? <==> Preflight(env, req).ConfigUnreadable? || Preflight(env, req).CredentialsInvalid?
    ensures outcome.Panicked? <==> Preflight(env, req).MalformedRegistry?
    ensures |calls| >= 1 && calls[0] == FetchEcrSecret(req)
    ensures !Preflight(env, req).Ready? ==> calls == [FetchEcrSecret(req)] && outcome == EarlyOutcome(r, Preflight(env, req))
    ensures Preflight(env, req).Ready? ==>
      2 <= |calls| <= 3 && calls[1] == FetchSecret(OwnedSecretKey(Preflight(env, req).ecrSecret))
    ensures Preflight(env, req).Ready? ==>
      OwnedSecretSynced(lib, r, env, Preflight(env, req).ecrSecret, now, outcome, calls[2..])
  {
    calls := [FetchEcrSecret(req)];
    var got := env.getEcrSecret(req);
    if got.NotFound? {
      return Return(EmptyResult, None), calls;
    }
    if got.Failed? {
      return Return(EmptyResult, Some(got.error)), calls;
    }
    var ecrSecret := got.value;
    var parts := SplitRegistry(ecrSecret.registry);
    if parts.None? {
      return Panicked, calls;
    }
    var accountId, region := parts.value.0, parts.value.1;
    if env.configOpen.Some? {
      return Exit(1, "FATAL: Cannot load '" + r.configFile + "'."), calls;
    }
    var credentials, err := LoadCredentials(env.configDecode, accountId);
    if err.Some? {
      return Exit(1, err.value), calls;
    }
    err := env.setCredentials(credentials.value, region);
    if err.Some? {
      return Return(EmptyResult, err), calls;
    }
    assert Preflight(env, req) == Ready(ecrSecret);
    calls := calls + [FetchSecret(OwnedSecretKey(ecrSecret))];
    var writes;
    outcome, writes := SyncOwnedSecret(lib, r, env, ecrSecret, now);
    calls := calls + writes;
  }
}
