/**
 * The drift/expiry oracle and the materializer of internal/ksecret: the content identity of a
 * docker-config secret, the drift and renewal-horizon tests, and the regeneration of a secret.
 */
module KSecret {
  import opened Wrappers
  import opened GoStrings
  import opened GoTime
  import opened Uuids
  import opened GoLib
  import opened Kube

  const AnnotationUid: string := "secrets.fireflycons.io/uuid"
  const AnnotationExpires: string := "secrets.fireflycons.io/expires"
  const AnnotationLifetime: string := "secrets.fireflycons.io/validity"

  /** The data key of a docker-config secret. */
  const DockerConfigKey: string := ".dockerconfigjson"

  /** The uid the materializer writes before the real one is known: the text of uuid.Nil (Uuids.FormatNil). */
  const PlaceholderUid: string := "00000000-0000-0000-0000-000000000000"

  /** The three annotation keys are distinct: they differ right after "secrets.fireflycons.io/". */
  lemma AnnotationKeysDistinct()
    ensures AnnotationUid != AnnotationExpires && AnnotationUid != AnnotationLifetime
    ensures AnnotationExpires != AnnotationLifetime
  {
    assert AnnotationUid[23] == 'u' && AnnotationExpires[23] == 'e' && AnnotationLifetime[23] == 'v';
  }

  /** What ecr.GetAuthorizationToken returns on success. */
  datatype AuthData = AuthData(authorizationToken: string, proxyEndpoint: string, expiresAt: int)

  /** The annotations and data of a materialized secret. */
  datatype SecretData = SecretData(annotations: map<string, string>, data: map<string, seq<byte>>)

  /** True when the secret carries the three fields its identity is computed from. */
  predicate HasContent(s: Secret) {
    DockerConfigKey in s.data && AnnotationExpires in s.annotations && AnnotationLifetime in s.annotations
  }

  /** The bytes that are digested: payload, expiry text, lifetime text, with no separators. */
  function HashInput(payload: seq<byte>, expires: string, lifetime: string): (r: seq<byte>)
    ensures r == payload + Utf8(expires + lifetime)
  {
    Utf8Append(expires, lifetime);
    payload + Utf8(expires) + Utf8(lifetime)
  }

  /** GetSecretUuid: the identity is the digest of payload, expiry and lifetime, or Nil without them. */
  function GetSecretUuid(lib: Lib, s: Secret): (u: Uuid)
    ensures !HasContent(s) ==> u == Nil
    ensures HasContent(s) ==>
      u == lib.md5(s.data[DockerConfigKey] + Utf8(s.annotations[AnnotationExpires]) + Utf8(s.annotations[AnnotationLifetime]))
  {
    if DockerConfigKey !in s.data then Nil
    else if AnnotationExpires !in s.annotations then Nil
    else if AnnotationLifetime !in s.annotations then Nil
    else lib.md5(HashInput(s.data[DockerConfigKey], s.annotations[AnnotationExpires], s.annotations[AnnotationLifetime]))
  }

  /**
   * The identity reads the three content fields and nothing else: not the uid annotation,
   * the name, the type or the owners. So it is the same for any two secrets with the same content.
   */
  lemma SecretUuidDependsOnContentOnly(lib: Lib, s: Secret, t: Secret)
    requires (DockerConfigKey in s.data) == (DockerConfigKey in t.data)
    requires DockerConfigKey in s.data ==> s.data[DockerConfigKey] == t.data[DockerConfigKey]
    requires (AnnotationExpires in s.annotations) == (AnnotationExpires in t.annotations)
    requires AnnotationExpires in s.annotations ==> s.annotations[AnnotationExpires] == t.annotations[AnnotationExpires]
    requires (AnnotationLifetime in s.annotations) == (AnnotationLifetime in t.annotations)
    requires AnnotationLifetime in s.annotations ==> s.annotations[AnnotationLifetime] == t.annotations[AnnotationLifetime]
    ensures GetSecretUuid(lib, s) == GetSecretUuid(lib, t)
  {
  }

  /** IsChanged: true when the recorded uid is missing, unreadable or not the recomputed one. */
  function IsChanged(lib: Lib, s: Secret): (changed: bool)
    ensures !changed <==>
      && GetSecretUuid(lib, s) != Nil
      && AnnotationUid in s.annotations
      && lib.parseUuid(s.annotations[AnnotationUid]) == Some(GetSecretUuid(lib, s))
  {
    var actualUid := GetSecretUuid(lib, s);
    if actualUid == Nil then true
    else if AnnotationUid !in s.annotations then true
    else match lib.parseUuid(s.annotations[AnnotationUid])
      case None => true
      case Some(statedUid) => statedUid != actualUid
  }

  /** A secret missing its payload, expiry or lifetime has always drifted, whatever its uid says. */
  lemma IncompleteIsChanged(lib: Lib, s: Secret)
    requires !HasContent(s)
    ensures IsChanged(lib, s)
  {
  }

  /** The secret with its uid annotation set to the text of its recomputed identity. */
  function Stamp(lib: Lib, s: Secret): Secret {
    s.(annotations := s.annotations[AnnotationUid := Format(GetSecretUuid(lib, s))])
  }

  /** Stamping the uid does not move the identity: the uid annotation is not part of the content. */
  lemma StampKeepsUuid(lib: Lib, s: Secret)
    ensures GetSecretUuid(lib, Stamp(lib, s)) == GetSecretUuid(lib, s)
  {
    AnnotationKeysDistinct();
    SecretUuidDependsOnContentOnly(lib, s, Stamp(lib, s));
  }

  /**
   * A stamped secret has not drifted unless its identity is Nil. Nothing here asks the expiry
   * or the lifetime to be well formed: IsChanged does not read them as times.
   */
  lemma StampIsUnchanged(lib: Lib, s: Secret)
    requires UuidLaw(lib)
    ensures !IsChanged(lib, Stamp(lib, s)) <==> GetSecretUuid(lib, s) != Nil
  {
    StampKeepsUuid(lib, s);
    assert lib.parseUuid(Format(GetSecretUuid(lib, s))) == Some(GetSecretUuid(lib, s));
  }

  /**
   * IsExpired: whether the secret is past its renewal horizon expires + (maxAge - lifetime).
   * Not one of ours without an expiry annotation; renewal is forced when the expiry or the
   * lifetime cannot be read; otherwise it takes owner references (a non-nil slice) and a
   * strictly later clock.
   */
  function IsExpired(lib: Lib, s: Secret, maxAge: int, now: int): bool {
    if AnnotationExpires !in s.annotations then false
    else match lib.parseTime(s.annotations[AnnotationExpires])
      case None => true
      case Some(expireTime) =>
        if AnnotationLifetime !in s.annotations then true
        else match lib.parseDuration(s.annotations[AnnotationLifetime])
          case None => true
          case Some(lifeTime) =>
            var t1 := expireTime + (maxAge - lifeTime);
            s.ownerReferences.Some? && now > t1
  }

  /** The renewal horizon of a secret whose expiry and lifetime both parse. */
  function RenewalHorizon(lib: Lib, s: Secret, maxAge: int): Option<int> {
    if AnnotationExpires !in s.annotations || AnnotationLifetime !in s.annotations then None
    else match (lib.parseTime(s.annotations[AnnotationExpires]), lib.parseDuration(s.annotations[AnnotationLifetime]))
      case (Some(e), Some(l)) => Some(e + (maxAge - l))
      case _ => None
  }

  /** A secret without the expiry annotation is not managed here and is never renewal-due. */
  lemma UnmanagedNeverExpires(lib: Lib, s: Secret, maxAge: int, now: int)
    requires AnnotationExpires !in s.annotations
    ensures !IsExpired(lib, s, maxAge, now)
  {
  }

  /**
   * Fail safe toward renewal: an unreadable expiry, a missing lifetime or an unreadable
   * lifetime makes the secret renewal-due at every instant and for every owner list.
   */
  lemma MalformedAlwaysExpires(lib: Lib, s: Secret, maxAge: int, now: int)
    requires AnnotationExpires in s.annotations
    requires || lib.parseTime(s.annotations[AnnotationExpires]).None?
             || AnnotationLifetime !in s.annotations
             || lib.parseDuration(s.annotations[AnnotationLifetime]).None?
    ensures IsExpired(lib, s, maxAge, now)
    ensures RenewalHorizon(lib, s, maxAge).None?
  {
  }

  /** A well-formed secret is renewal-due exactly when it has an owner slice and the clock is past the horizon. */
  lemma ExpiredPastHorizon(lib: Lib, s: Secret, maxAge: int, now: int)
    requires RenewalHorizon(lib, s, maxAge).Some?
    ensures IsExpired(lib, s, maxAge, now) <==>
      s.ownerReferences.Some? && now > RenewalHorizon(lib, s, maxAge).value
  {
  }

  /** The comparison is strict: not due at the horizon itself, due one second later. */
  lemma RenewalBoundary(lib: Lib, s: Secret, maxAge: int)
    requires RenewalHorizon(lib, s, maxAge).Some? && s.ownerReferences.Some?
    ensures !IsExpired(lib, s, maxAge, RenewalHorizon(lib, s, maxAge).value)
    ensures IsExpired(lib, s, maxAge, RenewalHorizon(lib, s, maxAge).value + 1)
  {
  }

  /** Once renewal-due, a secret stays renewal-due as the clock advances. */
  lemma ExpiryIsMonotone(lib: Lib, s: Secret, maxAge: int, now: int, later: int)
    requires now <= later && IsExpired(lib, s, maxAge, now)
    ensures IsExpired(lib, s, maxAge, later)
  {
  }

  /** A well-formed secret with a nil owner slice is never renewal-due. */
  lemma OwnerlessWellFormedNeverExpires(lib: Lib, s: Secret, maxAge: int, now: int)
    requires RenewalHorizon(lib, s, maxAge).Some? && s.ownerReferences.None?
    ensures !IsExpired(lib, s, maxAge, now)
  {
  }

  /** The owner test is a nil test: an empty, non-nil owner slice lets a past-horizon secret be due. */
  lemma EmptyOwnerSliceCounts(lib: Lib, s: Secret, maxAge: int, now: int)
    requires RenewalHorizon(lib, s, maxAge).Some? && s.ownerReferences == Some([])
    requires now > RenewalHorizon(lib, s, maxAge).value
    ensures IsExpired(lib, s, maxAge, now)
  {
  }

  /** A secret with no owner references and an unreadable expiry is renewal-due: the owner test is skipped. */
  lemma OwnerlessMalformedExpires(lib: Lib, expires: string, maxAge: int, now: int)
    requires lib.parseTime(expires).None?
    ensures IsExpired(lib, Secret("s", "ns", DockerConfigJsonType, map[AnnotationExpires := expires], map[], None), maxAge, now)
  {
  }

  /** The payload document `{"auths":{"<endpoint>":{"auth":"<token>"}}}`, endpoint and token verbatim. */
  function DockerConfigJson(endpoint: string, token: string): string {
    "{\"auths\":{\"" + endpoint + "\":{\"auth\":\"" + token + "\"}}}"
  }

  /**
   * GetSecretData: the annotations and payload of a secret for a token fetch. The fetch's error
   * is passed on untouched; there is no partial result.
   */
  function GetSecretData(lib: Lib, auth: Result<AuthData, Error>, now: int): Result<SecretData, Error> {
    match auth
    case Failure(err) => Failure(err)
    case Success(authData) =>
      var annotations := MaterializedAnnotations(lib.formatTime(authData.expiresAt), LifetimeText(authData.expiresAt, now));
      var data := map[DockerConfigKey := Utf8(DockerConfigJson(authData.proxyEndpoint, authData.authorizationToken))];
      Success(SecretData(annotations, data))
  }

  /** The validity annotation: the time left on the token, rounded to the minute, as Duration.String() prints it. */
  function LifetimeText(expiresAt: int, now: int): string {
    FormatDuration(RoundToMinute(expiresAt - now))
  }

  /** The annotation map GetSecretData writes, the uid being the placeholder. */
  function MaterializedAnnotations(expires: string, lifetime: string): (m: map<string, string>)
    ensures m.Keys == {AnnotationExpires, AnnotationUid, AnnotationLifetime}
    ensures m[AnnotationExpires] == expires && m[AnnotationUid] == PlaceholderUid && m[AnnotationLifetime] == lifetime
  {
    AnnotationKeysDistinct();
    map[AnnotationExpires := expires, AnnotationUid := PlaceholderUid, AnnotationLifetime := lifetime]
  }

  /** A failed token fetch yields that error and nothing else. */
  lemma GetSecretDataFailure(lib: Lib, auth: Result<AuthData, Error>, now: int)
    requires auth.Failure?
    ensures GetSecretData(lib, auth, now) == Failure(auth.error)
  {
  }

  /**
   * On success: exactly the expiry, uid and lifetime annotations, the uid being uuid.Nil's text,
   * and exactly one data key holding the registry-auth document.
   */
  lemma GetSecretDataShape(lib: Lib, auth: Result<AuthData, Error>, now: int)
    requires auth.Success?
    ensures GetSecretData(lib, auth, now).Success?
    ensures var sd := GetSecretData(lib, auth, now).value;
      && sd.annotations.Keys == {AnnotationExpires, AnnotationUid, AnnotationLifetime}
      && sd.annotations[AnnotationUid] == PlaceholderUid
      && sd.annotations[AnnotationExpires] == lib.formatTime(auth.value.expiresAt)
      && sd.annotations[AnnotationLifetime] == LifetimeText(auth.value.expiresAt, now)
      && sd.data.Keys == {DockerConfigKey}
      && sd.data[DockerConfigKey] == Utf8(DockerConfigJson(auth.value.proxyEndpoint, auth.value.authorizationToken))
  {
  }

  /**
   * A token fetched twelve hours before it expires, as in the operator's tests, is recorded
   * with the lifetime text "12h0m0s".
   */
  lemma TwelveHourTokenLifetime(expiresAt: int)
    ensures LifetimeText(expiresAt, expiresAt - 12 * Hour) == "12h0m0s"
  {
    RoundToMinuteNearest(12 * Hour, 12 * Hour);
    FormatTwelveHours();
  }

  /**
   * A token whose annotations the parsers can read back: its expiry falls in years 0000 to 9999, and
   * the time left on it, rounded to the minute, is an int64 Duration.
   */
  predicate Readable(auth: AuthData, now: int) {
    && InRfc3339Range(auth.expiresAt)
    && -MaxDurationSeconds + 30 <= auth.expiresAt - now <= MaxDurationSeconds - 30
  }

  /**
   * What the materialized annotations read back as: the fetched expiry, and a lifetime that is
   * a whole number of minutes within 30 seconds of the time left on the token.
   */
  lemma MaterializedReadsBack(lib: Lib, auth: Result<AuthData, Error>, now: int)
    requires TimeLaw(lib) && DurationLaw(lib) && auth.Success? && Readable(auth.value, now)
    ensures var sd := GetSecretData(lib, auth, now).value;
      && lib.parseTime(sd.annotations[AnnotationExpires]) == Some(auth.value.expiresAt)
      && lib.parseDuration(sd.annotations[AnnotationLifetime]).Some?
      && var l := lib.parseDuration(sd.annotations[AnnotationLifetime]).value;
         l % Minute == 0 && auth.value.expiresAt - now - 30 <= l <= auth.value.expiresAt - now + 30
  {
    var sd := GetSecretData(lib, auth, now).value;
    GetSecretDataShape(lib, auth, now);
    var l := RoundToMinute(auth.value.expiresAt - now);
    RoundToMinuteBounds(auth.value.expiresAt - now);
    assert sd.annotations[AnnotationLifetime] == FormatDuration(l);
    assert lib.parseDuration(FormatDuration(l)) == Some(l);
    assert lib.parseTime(lib.formatTime(auth.value.expiresAt)) == Some(auth.value.expiresAt);
  }

  /** The secret regenerated from `sd`: annotations and data replaced wholesale, then the uid stamped. */
  function Regenerate(lib: Lib, s: Secret, sd: SecretData): Secret {
    Stamp(lib, s.(annotations := sd.annotations, data := sd.data))
  }

  /**
   * A secret regenerated at `now` with owners is renewed about maxAge later: its horizon is
   * within 30 seconds of now + maxAge, whatever the token's remaining lifetime was.
   */
  lemma RegeneratedHorizon(lib: Lib, s: Secret, auth: Result<AuthData, Error>, now: int, maxAge: int)
    requires TimeLaw(lib) && DurationLaw(lib) && auth.Success? && Readable(auth.value, now)
    ensures var r := Regenerate(lib, s, GetSecretData(lib, auth, now).value);
      && RenewalHorizon(lib, r, maxAge).Some?
      && now + maxAge - 30 <= RenewalHorizon(lib, r, maxAge).value <= now + maxAge + 30
  {
    var sd := GetSecretData(lib, auth, now).value;
    var r := Regenerate(lib, s, sd);
    MaterializedReadsBack(lib, auth, now);
    assert r.annotations[AnnotationExpires] == sd.annotations[AnnotationExpires];
    assert r.annotations[AnnotationLifetime] == sd.annotations[AnnotationLifetime];
  }

  /**
   * Regeneration keeps name, namespace, type and owners, keeps none of the old annotations or
   * data, and leaves a secret that has not drifted unless its digest is uuid.Nil.
   */
  lemma RegenerateIsFresh(lib: Lib, s: Secret, auth: Result<AuthData, Error>, now: int)
    requires UuidLaw(lib) && auth.Success?
    ensures var r := Regenerate(lib, s, GetSecretData(lib, auth, now).value);
      && r.name == s.name && r.namespace == s.namespace && r.secretType == s.secretType
      && r.ownerReferences == s.ownerReferences
      && r.annotations.Keys == {AnnotationExpires, AnnotationUid, AnnotationLifetime}
      && r.data.Keys == {DockerConfigKey}
      && r.annotations[AnnotationUid] == Format(GetSecretUuid(lib, r))
      && (!IsChanged(lib, r) <==> GetSecretUuid(lib, r) != Nil)
  {
    var sd := GetSecretData(lib, auth, now).value;
    GetSecretDataShape(lib, auth, now);
    StampKeepsUuid(lib, s.(annotations := sd.annotations, data := sd.data));
    StampIsUnchanged(lib, s.(annotations := sd.annotations, data := sd.data));
  }

  /**
   * UpdateSecret: regenerate the secret in place. On a failed token fetch the secret is left as
   * it was. Otherwise annotations and data are replaced first, and only then is the uid computed
   * from the settled fields and stamped.
   */
  method UpdateSecret(lib: Lib, auth: Result<AuthData, Error>, secret: SecretObject, now: int) returns (err: Option<Error>)
    modifies secret
    ensures auth.Failure? ==> err == Some(auth.error) && secret.Value() == old(secret.Value())
    ensures auth.Success? ==>
      err == None && secret.Value() == Regenerate(lib, old(secret.Value()), GetSecretData(lib, auth, now).value)
    ensures auth.Success? ==> secret.annotations[AnnotationUid] == Format(GetSecretUuid(lib, secret.Value()))
    ensures auth.Success? && UuidLaw(lib) ==> (!IsChanged(lib, secret.Value()) <==> GetSecretUuid(lib, secret.Value()) != Nil)
  {
    var r := GetSecretData(lib, auth, now);
    if r.Failure? {
      return Some(r.error);
    }
    ghost var settled := secret.Value().(annotations := r.value.annotations, data := r.value.data);
    var annotations := r.value.annotations;
    secret.annotations := annotations;
    secret.data := r.value.data;
    assert secret.Value() == settled;
    var uid := GetSecretUuid(lib, secret.Value());
    annotations := annotations[AnnotationUid := Format(uid)];
    secret.annotations := annotations;
    assert secret.Value() == Stamp(lib, settled);
    StampKeepsUuid(lib, settled);
    if UuidLaw(lib) {
      StampIsUnchanged(lib, settled);
    }
    return None;
  }
}
