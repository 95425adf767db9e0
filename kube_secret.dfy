/**
 * controllers/ecrsecret_kube_secret.go: naming and building the docker-registry secret that an
 * ECRSecret owns.
 */
module EcrSecretKubeSecret {
  import opened Wrappers
  import opened GoStrings
  import opened Uuids
  import opened GoLib
  import opened Kube
  import opened KSecret

  /** The kind written into the owner reference of every managed secret. */
  const OwnerKind: string := "ECRSecret"

  /**
   * getKubeSecretName: spec.secretName verbatim (surrounding blanks and all) when it holds
   * anything but white space, otherwise the resource's name followed by "-secret".
   */
  function GetKubeSecretName(owner: EcrSecret): (name: string)
    ensures !AllSpace(owner.secretName) ==> name == owner.secretName
    ensures AllSpace(owner.secretName) ==> name == owner.name + "-secret"
  {
    TrimSpaceEmptyIff(owner.secretName);
    if |TrimSpace(owner.secretName)| > 0 then owner.secretName else owner.name + "-secret"
  }

  /** A blank or empty secretName falls back to the default; a real one is kept. */
  lemma KubeSecretNameExamples(name: string, namespace: string, uid: string, registry: string)
    ensures GetKubeSecretName(EcrSecret(name, namespace, uid, registry, "")) == name + "-secret"
    ensures GetKubeSecretName(EcrSecret(name, namespace, uid, registry, " \t\n")) == name + "-secret"
    ensures GetKubeSecretName(EcrSecret(name, namespace, uid, registry, "my=secret")) == "my=secret"
    ensures GetKubeSecretName(EcrSecret(name, namespace, uid, registry, " my-secret ")) == " my-secret "
  {
    assert !IsSpace("my=secret"[0]);
    assert !IsSpace(" my-secret "[1]);
  }

  /** The controller reference SetControllerReference writes for `owner`. */
  function ControllerRef(owner: EcrSecret): OwnerRef {
    OwnerRef(OwnerKind, owner.name, owner.uid, true, true)
  }

  /** A nil owner slice reads as an empty one when appended to. */
  function OwnersOf(s: Secret): seq<OwnerRef> {
    if s.ownerReferences.Some? then s.ownerReferences.value else []
  }

  /**
   * The secret constructSecret returns for secret data `sd`: named after the owner, in the
   * owner's namespace, of the dockerconfigjson type, holding the data's annotations and payload,
   * and with the owner as its single controller reference.
   */
  function NewSecret(owner: EcrSecret, sd: SecretData): Secret {
    Secret(GetKubeSecretName(owner), owner.namespace, DockerConfigJsonType, sd.annotations, sd.data,
           Some([ControllerRef(owner)]))
  }

  /**
   * ctrl.SetControllerReference on `target`: appends the owner as controller, or fails with
   * `failure` (the scheme lookup's error) and leaves the object alone.
   */
  method SetControllerReference(owner: EcrSecret, target: SecretObject, failure: Option<Error>) returns (err: Option<Error>)
    modifies target
    ensures err == failure
    ensures failure.Some? ==> target.Value() == old(target.Value())
    ensures failure.None? ==>
      target.Value() == old(target.Value()).(ownerReferences := Some(OwnersOf(old(target.Value())) + [ControllerRef(owner)]))
  {
    if failure.Some? {
      return failure;
    }
    target.ownerReferences := Some(OwnersOf(target.Value()) + [ControllerRef(owner)]);
    return None;
  }

  /**
   * constructSecret: the token's error, or SetControllerReference's, with no secret; otherwise a
   * new secret object holding NewSecret of the freshly built secret data.
   */
  method ConstructSecret(lib: Lib, owner: EcrSecret, auth: Result<AuthData, Error>, now: int, setRefFailure: Option<Error>)
    returns (secret: SecretObject?, err: Option<Error>)
    ensures auth.Failure? ==> secret == null && err == Some(auth.error)
    ensures auth.Success? && setRefFailure.Some? ==> secret == null && err == setRefFailure
    ensures auth.Success? && setRefFailure.None? ==>
      err == None && secret != null && fresh(secret)
      && secret.Value() == NewSecret(owner, GetSecretData(lib, auth, now).value)
  {
    var r := GetSecretData(lib, auth, now);
    if r.Failure? {
      return null, Some(r.error);
    }
    var sd := r.value;
    var s := new SecretObject(Secret(GetKubeSecretName(owner), owner.namespace, DockerConfigJsonType,
                                     sd.annotations, sd.data, None));
    err := SetControllerReference(owner, s, setRefFailure);
    if err.Some? {
      return null, err;
    }
    assert [] + [ControllerRef(owner)] == [ControllerRef(owner)];
    assert s.Value() == NewSecret(owner, sd);
    return s, None;
  }

  /**
   * The secret Reconcile creates (NewSecret, then the uid stamped): it carries the three
   * annotations and the payload, is owned, is not drifted unless its digest is uuid.Nil, and is
   * due for renewal close to `now + maxAge`.
   */
  lemma CreatedSecretIsFresh(lib: Lib, owner: EcrSecret, auth: Result<AuthData, Error>, now: int, maxAge: int)
    requires UuidLaw(lib) && TimeLaw(lib) && DurationLaw(lib) && auth.Success? && Readable(auth.value, now)
    ensures var c := Stamp(lib, NewSecret(owner, GetSecretData(lib, auth, now).value));
      && c.name == GetKubeSecretName(owner) && c.namespace == owner.namespace
      && c.ownerReferences == Some([ControllerRef(owner)])
      && c.annotations.Keys == {AnnotationExpires, AnnotationUid, AnnotationLifetime}
      && c.data.Keys == {DockerConfigKey}
      && (!IsChanged(lib, c) <==> GetSecretUuid(lib, c) != Nil)
      && RenewalHorizon(lib, c, maxAge).Some?
      && now + maxAge - 30 <= RenewalHorizon(lib, c, maxAge).value <= now + maxAge + 30
  {
    var sd := GetSecretData(lib, auth, now).value;
    var n := NewSecret(owner, sd);
    assert Stamp(lib, n) == Regenerate(lib, n, sd);
    RegenerateIsFresh(lib, n, auth, now);
    RegeneratedHorizon(lib, n, auth, now, maxAge);
  }
}
