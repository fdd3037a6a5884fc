/**
 * The Kubernetes secrets the provider reads user data from, as a value: each
 * secret of a namespace is a map from data keys to bytes.  Only "not found"
 * is an error a lookup can give.
 */
module Kube {
  import opened Wrappers
  import opened Strs

  type SecretData = map<string, seq<byte>>

  /** The secrets of the cluster, by namespace and name. */
  type Secrets = map<(string, string), SecretData>

  /** `Secrets(namespace).Get(name)`: the secret, or the API server's not-found error. */
  function GetSecret(secrets: Secrets, namespace: string, name: string): (r: Result<SecretData>)
    ensures r.Ok? <==> (namespace, name) in secrets
    ensures r.Ok? ==> r.value == secrets[(namespace, name)]
  {
    if (namespace, name) in secrets then Ok(secrets[(namespace, name)])
    else Err(SecretNotFound(name))
  }

  /** The context every user-data error starts with. */
  function SecretContext(namespace: string, name: string): string {
    "can not retrieve user data secret '" + namespace + "/" + name + "' when constructing cloud init volume"
  }

  /** The API server's error for a secret that does not exist. */
  function SecretNotFound(name: string): Error {
    Fail("secrets " + Quote(name) + " not found")
  }

  /** The error for a secret without the entry wanted; `reportedKey` is the key the message names. */
  function MissingKeyError(namespace: string, name: string, reportedKey: string): Error {
    Fail(SecretContext(namespace, name) + ": key '" + reportedKey + "' not found in the secret")
  }

  /**
   * The "userData" entry of the secret `namespace/name`.  A failed lookup is
   * wrapped in the context above; a secret without the entry fails with the
   * context and "key '<reportedKey>' not found in the secret" (the key named
   * in that message is the caller's choice, and need not be "userData").
   */
  function UserData(secrets: Secrets, namespace: string, name: string, reportedKey: string): (r: Result<seq<byte>>)
    ensures r.Ok? <==> (namespace, name) in secrets && "userData" in secrets[(namespace, name)]
    ensures r.Ok? ==> r.value == secrets[(namespace, name)]["userData"]
    ensures (namespace, name) !in secrets ==>
              r == Err(Wrap(SecretContext(namespace, name), SecretNotFound(name)))
    ensures (namespace, name) in secrets && "userData" !in secrets[(namespace, name)] ==>
              r == Err(MissingKeyError(namespace, name, reportedKey))
  {
    match GetSecret(secrets, namespace, name)
    case Err(e) => Err(Wrap(SecretContext(namespace, name), e))
    case Ok(data) =>
      if "userData" in data then Ok(data["userData"])
      else Err(MissingKeyError(namespace, name, reportedKey))
  }

  /** Go's `string(b)` of bytes, each byte read as the character with that code. */
  function BytesText(b: seq<byte>): (s: string)
    ensures |s| == |b| && forall i :: 0 <= i < |b| ==> s[i] as int == b[i]
  {
    seq(|b|, i requires 0 <= i < |b| => b[i] as char)
  }

  /** Go's `[]byte(s)` of a text whose characters are all below 256. */
  function TextBytes(s: string): (b: seq<byte>)
    ensures |b| == |s| && forall i :: 0 <= i < |s| ==> b[i] == (s[i] as int) % 256
  {
    seq(|s|, i requires 0 <= i < |s| => (s[i] as int) % 256)
  }

  /** Reading bytes as text and writing the text back gives the same bytes. */
  lemma TextBytesOfBytesText(b: seq<byte>)
    ensures TextBytes(BytesText(b)) == b
  {
  }
}
