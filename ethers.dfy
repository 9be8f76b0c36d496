/**
 * The blockchain configuration of the server: the three environment
 * variables it needs, and the private key normalised to a "0x" prefix.
 * Building the RPC clients is not modelled.
 */
module Ethers {
  import opened Wrappers
  import opened Text

  /** The token's decimals. */
  const B_DECIMALS: nat := 18

  const MISSING_ENV: string := "Missing blockchain environment variables"

  /** `NORMALIZED_SERVER_WALLET_PRIVATE_KEY`. */
  function NormalizeKey(key: string): (r: string)
    ensures StartsWith(r, "0x")
    ensures StartsWith(key, "0x") ==> r == key
    ensures !StartsWith(key, "0x") ==> r == "0x" + key
  {
    if StartsWith(key, "0x") then key
    else
      assert ("0x" + key)[..2] == "0x";
      "0x" + key
  }

  /** Normalising twice is normalising once. */
  lemma NormalizeIsIdempotent(key: string)
    ensures NormalizeKey(NormalizeKey(key)) == NormalizeKey(key)
  {
  }

  /** Normalising only adds the prefix: dropping the first two characters
      of a key that lacked it gives the key back. */
  lemma NormalizeAddsOnlyThePrefix(key: string)
    requires !StartsWith(key, "0x")
    ensures NormalizeKey(key)[2..] == key && |NormalizeKey(key)| == |key| + 2
  {
  }

  /** The environment; an unset variable reads as "". */
  datatype Env = Env(tokenAddress: Option<string>, privateKey: Option<string>, rpcUrl: Option<string>)

  datatype Config =
    | MissingEnv(message: string)
    | Ready(tokenAddress: string, normalizedKey: string, rpcUrl: string)

  function OrEmpty(v: Option<string>): string {
    if v.Some? then v.value else ""
  }

  /** Module initialisation: the guard, then the normalisation. */
  function LoadConfig(env: Env): (c: Config)
    ensures c.MissingEnv? <==> OrEmpty(env.tokenAddress) == "" || OrEmpty(env.privateKey) == "" || OrEmpty(env.rpcUrl) == ""
    ensures c.MissingEnv? ==> c.message == MISSING_ENV
    ensures c.Ready? ==> c.tokenAddress == env.tokenAddress.value && c.rpcUrl == env.rpcUrl.value &&
                         c.normalizedKey == NormalizeKey(env.privateKey.value)
  {
    var token := OrEmpty(env.tokenAddress);
    var key := OrEmpty(env.privateKey);
    var url := OrEmpty(env.rpcUrl);
    if token == "" || key == "" || url == "" then MissingEnv(MISSING_ENV)
    else Ready(token, NormalizeKey(key), url)
  }

  /** A loaded key is never the bare prefix of nothing: it is "0x" followed
      by at least one character, or a key that already had the prefix. */
  lemma LoadedKeyShape(env: Env)
    requires LoadConfig(env).Ready?
    ensures StartsWith(LoadConfig(env).normalizedKey, "0x")
    ensures !StartsWith(env.privateKey.value, "0x") ==> |LoadConfig(env).normalizedKey| >= 3
  {
  }
}
