/**
 * internal/config: choosing an account's credentials from the decoded TOML configuration, a
 * table keyed by account id whose entries hold `access_key` and `secret_key`.
 */
module Config {
  import opened Wrappers
  import opened GoStrings
  import opened Kube

  /** The decoded file: account id to key/value table. */
  type Configuration = map<string, map<string, string>>

  /** aws.Credentials */
  datatype Credentials = Credentials(accessKeyId: string, secretAccessKey: string)

  const AccessKey: string := "access_key"
  const SecretKey: string := "secret_key"

  function MissingCredsMessage(accountId: string): string {
    "FATAL: Credentials for account '" + accountId + "' not present in configuration"
  }

  function MissingKeyMessage(key: string): string {
    "'" + key + "' missing from config"
  }

  /**
   * The outcome for a decoded configuration, case by case: the account's two keys when both are
   * there (other keys ignored), otherwise the message naming what is missing, access_key first.
   */
  function CredentialsFor(configuration: Configuration, accountId: string): (r: (Option<Credentials>, Option<Error>))
    ensures r.0.Some? != r.1.Some?
  {
    if accountId !in configuration then (None, Some(MissingCredsMessage(accountId)))
    else
      var entry := configuration[accountId];
      match (AccessKey in entry, SecretKey in entry)
      case (true, true) => (Some(Credentials(entry[AccessKey], entry[SecretKey])), None)
      case (false, true) => (None, Some("FATAL: " + MissingKeyMessage(AccessKey)))
      case (true, false) => (None, Some("FATAL: " + MissingKeyMessage(SecretKey)))
      case (false, false) => (None, Some("FATAL: " + MissingKeyMessage(AccessKey) + ", " + MissingKeyMessage(SecretKey)))
  }

  /** Only the named account's access_key and secret_key decide the outcome. */
  lemma CredentialsForReadsOnlyOwnKeys(configuration: Configuration, accountId: string, other: string, key: string, value: string)
    requires other != accountId || (key != AccessKey && key != SecretKey)
    requires other in configuration
    ensures CredentialsFor(configuration[other := configuration[other][key := value]], accountId)
         == CredentialsFor(configuration, accountId)
  {
  }

  /** Two accounts in one file: each account id selects its own pair of keys. */
  lemma TwoAccountsScenario()
    ensures var configuration := map[
        "123456789012" := map[AccessKey := "AKAIEXAMPLE1", SecretKey := "secretEXAMPLE1"],
        "2109878654321" := map[AccessKey := "AKAIEXAMPLE2", SecretKey := "secretEXAMPLE2"]];
      && CredentialsFor(configuration, "123456789012") == (Some(Credentials("AKAIEXAMPLE1", "secretEXAMPLE1")), None)
      && CredentialsFor(configuration, "2109878654321") == (Some(Credentials("AKAIEXAMPLE2", "secretEXAMPLE2")), None)
      && CredentialsFor(configuration, "999999999999") == (None, Some(MissingCredsMessage("999999999999")))
  {
    var configuration := map[
        "123456789012" := map[AccessKey := "AKAIEXAMPLE1", SecretKey := "secretEXAMPLE1"],
        "2109878654321" := map[AccessKey := "AKAIEXAMPLE2", SecretKey := "secretEXAMPLE2"]];
    assert AccessKey[0] != SecretKey[0];
    assert "123456789012"[0] != "2109878654321"[0];
    assert "999999999999"[0] != "123456789012"[0] && "999999999999"[0] != "2109878654321"[0];
    assert "999999999999" !in configuration;
  }

  /**
   * LoadCredentials after TOML decoding (`decoded` is the decoder's result). A decoding error is
   * returned unchanged; exactly one of the two results is present on every path.
   */
  method LoadCredentials(decoded: Result<Configuration, Error>, accountId: string)
    returns (creds: Option<Credentials>, err: Option<Error>)
    ensures creds.Some? != err.Some?
    ensures decoded.Failure? ==> creds == None && err == Some(decoded.error)
    ensures decoded.Success? ==> (creds, err) == CredentialsFor(decoded.value, accountId)
  {
    if decoded.Failure? {
      return None, Some(decoded.error);
    }
    var configuration := decoded.value;
    if accountId !in configuration {
      return None, Some(MissingCredsMessage(accountId));
    }
    var entry := configuration[accountId];
    var ok1 := AccessKey in entry;
    var ok2 := SecretKey in entry;
    if ok1 && ok2 {
      return Some(Credentials(entry[AccessKey], entry[SecretKey])), None;
    }
    var errors: seq<string> := [];
    if !ok1 {
      errors := errors + [MissingKeyMessage(AccessKey)];
    }
    if !ok2 {
      errors := errors + [MissingKeyMessage(SecretKey)];
    }
    if !ok1 && !ok2 {
      assert errors == [MissingKeyMessage(AccessKey), MissingKeyMessage(SecretKey)];
      assert Join([MissingKeyMessage(SecretKey)], ", ") == MissingKeyMessage(SecretKey);
      assert Join(errors, ", ") == MissingKeyMessage(AccessKey) + ", " + MissingKeyMessage(SecretKey);
      assert "FATAL: " + Join(errors, ", ") == "FATAL: " + MissingKeyMessage(AccessKey) + ", " + MissingKeyMessage(SecretKey);
    } else if !ok1 {
      assert errors == [MissingKeyMessage(AccessKey)];
    } else {
      assert errors == [MissingKeyMessage(SecretKey)];
    }
    return None, Some("FATAL: " + Join(errors, ", "));
  }
}
