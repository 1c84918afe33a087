/** JavaScript values as they appear in the contract-call payloads.

    The library encoders that the payload builders call (IconConverter.toHex,
    JSON.stringify and BigNumber.prototype.toFixed) are not part of this model.
    Their applications are kept as uninterpreted terms: `ToHex(v)` stands for
    the string `IconConverter.toHex(v)` returns, and so on.  Every equality
    proved between such terms therefore holds for every implementation of the
    encoders, and the number of `ToHex` layers around a value is visible. */
module JsValues {

  datatype Option<+T> = None | Some(value: T)

  datatype Value =
    | Undefined
    | Str(s: string)
    | Num(n: real)                       // a BigNumber or a JS number
    | Obj(fields: seq<(string, Value)>)  // an object literal, keys in written order
    | ToHex(arg: Value)                  // IconConverter.toHex(arg)
    | Stringify(arg: Value)              // JSON.stringify(arg)
    | ToFixed(n: real)                   // n.toFixed() of a BigNumber

  /** JavaScript truthiness of a value.  `toHex` and `toFixed` always return
      a non-empty string; among the values of this type, `JSON.stringify`
      returns `undefined` only for `undefined`. */
  predicate Truthy(v: Value) {
    match v
    case Undefined => false
    case Str(s) => s != ""
    case Num(n) => n != 0.0
    case Obj(_) => true
    case ToHex(_) => true
    case Stringify(a) => !a.Undefined?
    case ToFixed(_) => true
  }

  /** `if (account)`: an account is bound when it is neither absent nor empty. */
  predicate AccountBound(account: Option<string>)
    ensures AccountBound(account) ==> account.Some?
    ensures account == Some("") ==> !AccountBound(account)
    ensures account.Some? && account.value != "" ==> AccountBound(account)
  {
    account.Some? && account.value != ""
  }

  /** `a && b` in JavaScript: `a` when it is falsy, `b` otherwise. */
  function And(a: Value, b: Value): (r: Value)
    ensures Truthy(a) ==> r == b
    ensures !Truthy(a) ==> r == a
  {
    if Truthy(a) then b else a
  }

  /** How many times a value has been hex-encoded, counting the outer
      `toHex` applications. */
  function HexLayers(v: Value): nat {
    if v.ToHex? then 1 + HexLayers(v.arg) else 0
  }

  /** The text of a JavaScript string read as a property of an object.
      `undefined` when the key is absent. */
  function Prop(m: map<string, string>, key: string): (r: Value)
    ensures key in m <==> r.Str?
    ensures key in m ==> r == Str(m[key])
    ensures key !in m ==> r == Undefined
  {
    if key in m then Str(m[key]) else Undefined
  }

  /** `String.prototype.toLowerCase` on one character, restricted to ASCII. */
  function LowerChar(c: char): (r: char)
    ensures 'A' <= c <= 'Z' ==> r as int == c as int + 32
    ensures !('A' <= c <= 'Z') ==> r == c
  {
    if 'A' <= c <= 'Z' then (c as int + 32) as char else c
  }

  /** `String.prototype.toLowerCase`, restricted to ASCII letters. */
  function Lower(s: string): (r: string)
    ensures |r| == |s|
    ensures forall i :: 0 <= i < |s| ==> r[i] == LowerChar(s[i])
  {
    if s == [] then [] else [LowerChar(s[0])] + Lower(s[1..])
  }

  /** No upper-case ASCII letter is left after lower-casing. */
  lemma LowerCharIsLower(c: char)
    ensures !('A' <= LowerChar(c) <= 'Z')
    ensures LowerChar(LowerChar(c)) == LowerChar(c)
  {
  }

  /** Lower-casing twice is the same as lower-casing once. */
  lemma LowerIdempotent(s: string)
    ensures Lower(Lower(s)) == Lower(s)
  {
    var l := Lower(s);
    forall i | 0 <= i < |s|
      ensures Lower(l)[i] == l[i]
    {
      LowerCharIsLower(s[i]);
    }
  }
}
