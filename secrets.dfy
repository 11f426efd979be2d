/**
 * Secret Manager as gcp/secret_manager.py uses it: secrets are addressed by the
 * path `projects/{project}/secrets/{name}`, storing adds a version, reading
 * gives the latest version. Payloads are kept as values; the JSON text they
 * travel as is not modelled.
 */
module Secrets {
  import opened Wrappers
  import opened Values
  import opened Text

  /** The resource path `store_secret` builds and returns. */
  function SecretPath(project: string, name: string): (r: string)
    ensures Text.StartsWith(r, "projects/")
  {
    "projects/" + project + "/secrets/" + name
  }

  /** The secret name the router recovers from a path: its last `/` segment. */
  function NameOf(path: string): string {
    LastSegment(path, '/')
  }

  /** The name is recovered from the path exactly when it holds no `/`. */
  lemma NameOfSecretPath(project: string, name: string)
    ensures NameOf(SecretPath(project, name)) == name <==> '/' !in name
  {
    var head := "projects/" + project + "/secrets";
    assert SecretPath(project, name) == head + ['/'] + name;
    LastSegmentAfter(head, name, '/');
    if '/' in name {
      LastSegmentShorter(name, '/');
    } else {
      SplitWithoutSep(name, '/');
    }
  }

  /** The latest version of the secret at `path`, if there is one. */
  function LatestVersion(secrets: map<string, seq<Value>>, path: string): Option<Value> {
    if path in secrets && secrets[path] != [] then Some(secrets[path][|secrets[path]| - 1]) else None
  }

  /** The secrets after `payload` is added as the newest version of the secret at `path`. */
  function AddVersion(secrets: map<string, seq<Value>>, path: string, payload: Value): (r: map<string, seq<Value>>)
    ensures LatestVersion(r, path) == Some(payload)
    ensures forall q :: q != path ==> LatestVersion(r, q) == LatestVersion(secrets, q)
  {
    secrets[path := (if path in secrets then secrets[path] else []) + [payload]]
  }

  class SecretManager {
    /** The Google Cloud project the secrets live in. */
    const project: string
    /** The versions of each secret, oldest first, by resource path. */
    var secrets: map<string, seq<Value>>

    constructor (project: string, secrets: map<string, seq<Value>>)
      ensures this.project == project && this.secrets == secrets
    {
      this.project := project;
      this.secrets := secrets;
    }

    /** Creates the secret when missing, then adds the payload as its newest version. */
    method StoreSecret(name: string, payload: Value) returns (path: string)
      modifies this
      ensures path == SecretPath(project, name)
      ensures secrets == AddVersion(old(secrets), path, payload)
    {
      path := SecretPath(project, name);
      secrets := AddVersion(secrets, path, payload);
    }

    /** Reads `{path}/versions/latest`; None stands for the NotFound the service raises. */
    method GetSecret(path: string) returns (r: Option<Value>)
      ensures r == LatestVersion(secrets, path)
    {
      if path in secrets && secrets[path] != [] {
        r := Some(secrets[path][|secrets[path]| - 1]);
      } else {
        r := None;
      }
    }
  }
}
