/**
 * `SecretStr` and `SecretBytes`: a value kept in the `_secret_value` slot,
 * handed back by `get_secret_value`, and shown by `display`, `repr` and
 * `str` only as ten asterisks (or nothing, for an empty value).
 */
module Secrets {

  import opened Values

  /**
   * What `display` shows for a secret: ten asterisks when the value is
   * truthy (non-empty), nothing otherwise. The text depends on nothing but
   * whether the value is empty.
   */
  function Mask<T>(secret: seq<T>): (r: string)
    ensures |r| == (if |secret| == 0 then 0 else 10)
    ensures forall i :: 0 <= i < |r| ==> r[i] == '*'
  {
    if |secret| > 0 then "**********" else ""
  }

  class SecretStr {
    var secretValue: string

    /** `__init__`: the value is stored as it is. */
    constructor (value: string)
      ensures secretValue == value
    {
      secretValue := value;
    }

    /** `validate`, the last validator of the chain: wrap the string in a new secret. */
    static method Validate(value: string) returns (s: SecretStr)
      ensures fresh(s) && s.GetSecretValue() == value
    {
      s := new SecretStr(value);
    }

    /** `get_secret_value`: the stored value, unchanged. */
    function GetSecretValue(): (v: string)
      reads this
      ensures v == secretValue
    {
      secretValue
    }

    /** `display`. */
    function Display(): (r: string)
      reads this
      ensures r == Mask(secretValue)
    {
      if secretValue != "" then "**********" else ""
    }

    /** `__repr__`, which `__str__` returns as well: the class name around the mask. */
    function Repr(): (r: string)
      reads this
      ensures r == "SecretStr('" + Mask(secretValue) + "')"
    {
      if secretValue != "" then "SecretStr('**********')" else "SecretStr('')"
    }
  }

  class SecretBytes {
    var secretValue: seq<byte>

    /** `__init__`: the value is stored as it is. */
    constructor (value: seq<byte>)
      ensures secretValue == value
    {
      secretValue := value;
    }

    /** `validate`, the last validator of the chain: wrap the bytes in a new secret. */
    static method Validate(value: seq<byte>) returns (s: SecretBytes)
      ensures fresh(s) && s.GetSecretValue() == value
    {
      s := new SecretBytes(value);
    }

    /** `get_secret_value`: the stored value, unchanged. */
    function GetSecretValue(): (v: seq<byte>)
      reads this
      ensures v == secretValue
    {
      secretValue
    }

    /** `display`. */
    function Display(): (r: string)
      reads this
      ensures r == Mask(secretValue)
    {
      if secretValue != [] then "**********" else ""
    }

    /** `__repr__`, which `__str__` returns as well: the class name around the bytes literal of the mask. */
    function Repr(): (r: string)
      reads this
      ensures r == "SecretBytes(b'" + Mask(secretValue) + "')"
    {
      if secretValue != [] then "SecretBytes(b'**********')" else "SecretBytes(b'')"
    }
  }

  /**
   * Two secrets that are both empty or both non-empty look the same however
   * their values differ: nothing shown depends on the value.
   */
  lemma ShownTextHidesValue(a: SecretStr, b: SecretStr)
    requires (a.secretValue == "") == (b.secretValue == "")
    ensures a.Display() == b.Display() && a.Repr() == b.Repr()
  {
  }

  /** The same for secret bytes. */
  lemma ShownBytesHideValue(a: SecretBytes, b: SecretBytes)
    requires (a.secretValue == []) == (b.secretValue == [])
    ensures a.Display() == b.Display() && a.Repr() == b.Repr()
  {
  }
}
