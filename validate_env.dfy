/**
 * Start-up validation of the environment (`validateEnvironment`): three
 * required keys, an Alchemy RPC endpoint, a 64-digit hexadecimal private key
 * and a `0x`-prefixed 40-digit wallet address, checked in that order.
 */
module ValidateEnv {
  import opened Common
  import opened Text

  /** `process.env`: the variables that are set. */
  type Env = map<string, string>

  const Required: seq<string> := ["RPC_ENDPOINT", "PRIVATE_KEY", "WALLET_ADDRESS"]

  const MissingPrefix: string := "Missing required environment variables: "
  const EndpointError: string := "Invalid RPC endpoint. Must be Alchemy endpoint."
  const PrivateKeyError: string := "Invalid private key format"
  const AddressError: string := "Invalid wallet address format"

  /** `!process.env[key]`: unset or empty. */
  predicate Absent(env: Env, key: string)
  {
    key !in env || env[key] == ""
  }

  /** `required.filter(key => !process.env[key])`. */
  function Missing(env: Env, keys: seq<string>): seq<string>
  {
    if keys == [] then []
    else (if Absent(env, keys[0]) then [keys[0]] else []) + Missing(env, keys[1..])
  }

  /** The missing keys are exactly the absent ones among `keys`, in their order. */
  lemma {:induction false} MissingExact(env: Env, keys: seq<string>)
    ensures forall k :: k in Missing(env, keys) <==> k in keys && Absent(env, k)
    ensures |Missing(env, keys)| <= |keys|
    ensures Missing(env, keys) == [] <==> forall i :: 0 <= i < |keys| ==> !Absent(env, keys[i])
  {
    if keys != [] {
      MissingExact(env, keys[1..]);
      assert keys == [keys[0]] + keys[1..];
    }
  }

  /** `/^[0-9a-f]{64}$/i`: exactly 64 hexadecimal digits of either case. */
  predicate IsPrivateKey(s: string)
  {
    |s| == 64 && AllHex(s)
  }

  /** `/^0x[0-9a-fA-F]{40}$/i`: `0x` (or `0X`) and 40 hexadecimal digits. */
  predicate IsWalletAddress(s: string)
  {
    |s| == 42 && s[0] == '0' && (s[1] == 'x' || s[1] == 'X') && AllHex(s[2..])
  }

  /** `validateEnvironment`: the first failing check's message, or `true`. */
  function ValidateEnvironment(env: Env): (r: Result<bool, string>)
    ensures r.Ok? ==> r.value && forall k :: k in Required ==> !Absent(env, k)
    ensures r.Err? ==>
      (r.error in {EndpointError, PrivateKeyError, AddressError}
       || (|r.error| >= |MissingPrefix| && r.error[..|MissingPrefix|] == MissingPrefix))
  {
    var missing := Missing(env, Required);
    if |missing| > 0 then Err(MissingPrefix + Join(missing, ", "))
    else
      MissingExact(env, Required);
      assert Required[0] == "RPC_ENDPOINT" && Required[1] == "PRIVATE_KEY" && Required[2] == "WALLET_ADDRESS";
      if !Contains(env["RPC_ENDPOINT"], "alchemy.com") then Err(EndpointError)
      else if !IsPrivateKey(env["PRIVATE_KEY"]) then Err(PrivateKeyError)
      else if !IsWalletAddress(env["WALLET_ADDRESS"]) then Err(AddressError)
      else Ok(true)
  }

  /**
   * Validation succeeds iff all three keys are set and non-empty, the
   * endpoint contains `alchemy.com`, the key is 64 hex digits and the address
   * is `0x`/`0X` and 40 hex digits; it then answers `true`.
   */
  lemma ValidateEnvironmentIff(env: Env)
    ensures ValidateEnvironment(env).Ok? <==>
      !Absent(env, "RPC_ENDPOINT") && !Absent(env, "PRIVATE_KEY") && !Absent(env, "WALLET_ADDRESS")
      && (exists i :: OccursAt(env["RPC_ENDPOINT"], "alchemy.com", i))
      && IsPrivateKey(env["PRIVATE_KEY"])
      && IsWalletAddress(env["WALLET_ADDRESS"])
    ensures ValidateEnvironment(env).Ok? ==> ValidateEnvironment(env).value
  {
    MissingExact(env, Required);
    assert Required[0] == "RPC_ENDPOINT" && Required[1] == "PRIVATE_KEY" && Required[2] == "WALLET_ADDRESS";
    if Missing(env, Required) == [] {
      ContainsIff(env["RPC_ENDPOINT"], "alchemy.com");
    }
  }

  /**
   * The checks run in order and the first failure is the one reported: an
   * absent key wins over every format error, a bad endpoint over the key and
   * address, a bad key over the address.
   */
  lemma ValidateEnvironmentOrder(env: Env)
    ensures Missing(env, Required) != [] ==>
      ValidateEnvironment(env) == Err(MissingPrefix + Join(Missing(env, Required), ", "))
    ensures Missing(env, Required) == [] ==>
      (forall k :: k in Required ==> k in env)
      && (!Contains(env["RPC_ENDPOINT"], "alchemy.com") ==> ValidateEnvironment(env) == Err(EndpointError))
      && (Contains(env["RPC_ENDPOINT"], "alchemy.com") && !IsPrivateKey(env["PRIVATE_KEY"]) ==>
            ValidateEnvironment(env) == Err(PrivateKeyError))
      && ((Contains(env["RPC_ENDPOINT"], "alchemy.com") && IsPrivateKey(env["PRIVATE_KEY"])
           && !IsWalletAddress(env["WALLET_ADDRESS"])) ==> ValidateEnvironment(env) == Err(AddressError))
  {
    MissingExact(env, Required);
  }

  /** Only the wallet address is missing: the message names it alone. */
  lemma OnlyAddressMissing(env: Env)
    requires "RPC_ENDPOINT" in env && env["RPC_ENDPOINT"] != ""
    requires "PRIVATE_KEY" in env && env["PRIVATE_KEY"] != ""
    requires "WALLET_ADDRESS" !in env
    ensures ValidateEnvironment(env) == Err(MissingPrefix + "WALLET_ADDRESS")
  {
    assert Required[2..][1..] == [];
    assert Missing(env, Required[2..]) == ["WALLET_ADDRESS"];
    assert Required[1..][1..] == Required[2..];
    assert Missing(env, Required[1..]) == ["WALLET_ADDRESS"];
    assert Missing(env, Required) == ["WALLET_ADDRESS"];
  }
}
