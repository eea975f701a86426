/** The `isEmpty` validator: undefined, null, an object with no own keys and
    a string that trims to nothing are empty; every other value is not. */
module Validation {

  /** The JavaScript values `isEmpty` can be given. An array is an object
      whose own keys are its indices, so a dense array of n entries has n
      keys; a function is not an object for `typeof`. */
  datatype JsValue =
    | Undefined
    | Null
    | Bool(b: bool)
    | Num(x: real)
    | Str(s: string)
    | Arr(items: seq<JsValue>)
    | Obj(keys: set<string>)
    | Func

  /** What the `typeof` operator answers (null is an "object"). */
  function TypeOf(v: JsValue): (t: string)
    ensures t == "object" <==> v.Null? || v.Arr? || v.Obj?
    ensures t == "string" <==> v.Str?
  {
    match v
    case Undefined => "undefined"
    case Null => "object"
    case Bool(_) => "boolean"
    case Num(_) => "number"
    case Str(_) => "string"
    case Arr(_) => "object"
    case Obj(_) => "object"
    case Func => "function"
  }

  /** `Object.keys(v).length`; `Object.keys` throws on undefined and null. */
  function OwnKeyCount(v: JsValue): (n: nat)
    requires !v.Undefined? && !v.Null?
    ensures n == 0 <==> v.Bool? || v.Num? || v.Func? || v == Str("") || v == Arr([]) || v == Obj({})
  {
    match v
    case Str(s) => |s|
    case Arr(items) => |items|
    case Obj(keys) => |keys|
    case Bool(_) => 0
    case Num(_) => 0
    case Func => 0
  }

  /** The characters `String.prototype.trim` strips: the ECMAScript WhiteSpace
      code points (tab, vertical tab, form feed, the byte order mark and the
      space separators of Unicode category Zs) and the LineTerminator code
      points (line feed, carriage return, line and paragraph separator). */
  function IsWhiteSpace(c: char): (w: bool)
    ensures c == ' ' || c == '\t' || c == '\n' || c == '\r' ==> w
    ensures '!' <= c <= '~' ==> !w
  {
    || c == '\t' || c == '\U{000B}' || c == '\U{000C}' || c == ' ' || c == '\U{00A0}' || c == '\U{FEFF}'
    || c == '\U{1680}' || ('\U{2000}' <= c <= '\U{200A}') || c == '\U{202F}' || c == '\U{205F}' || c == '\U{3000}'
    || c == '\n' || c == '\r' || c == '\U{2028}' || c == '\U{2029}'
  }

  predicate AllWhiteSpace(s: string) {
    forall i :: 0 <= i < |s| ==> IsWhiteSpace(s[i])
  }

  /** How many characters at the start of `s` are white space. */
  function LeadingWhiteSpace(s: string): (n: nat)
    ensures n <= |s|
    ensures forall i :: 0 <= i < n ==> IsWhiteSpace(s[i])
    ensures n < |s| ==> !IsWhiteSpace(s[n])
  {
    if s == [] || !IsWhiteSpace(s[0]) then 0 else 1 + LeadingWhiteSpace(s[1..])
  }

  /** How many characters at the end of `s` are white space. */
  function TrailingWhiteSpace(s: string): (n: nat)
    ensures n <= |s|
    ensures forall i :: |s| - n <= i < |s| ==> IsWhiteSpace(s[i])
    ensures n < |s| ==> !IsWhiteSpace(s[|s| - n - 1])
  {
    if s == [] || !IsWhiteSpace(s[|s| - 1]) then 0 else 1 + TrailingWhiteSpace(s[..|s| - 1])
  }

  /** `r` is `s` with the first `k` characters and some last ones taken
      away, and only white space was taken away. */
  predicate IsWhiteSpaceFrame(s: string, k: nat, r: string) {
    && k + |r| <= |s|
    && r == s[k..k + |r|]
    && AllWhiteSpace(s[..k])
    && AllWhiteSpace(s[k + |r|..])
  }

  /** `s.trim()`: the part of `s` between its leading and its trailing white
      space; it is empty exactly when `s` is white space throughout. */
  function Trim(s: string): (r: string)
    ensures IsWhiteSpaceFrame(s, LeadingWhiteSpace(s), r)
    ensures r != [] ==> !IsWhiteSpace(r[0]) && !IsWhiteSpace(r[|r| - 1])
    ensures r == [] <==> AllWhiteSpace(s)
  {
    var a := LeadingWhiteSpace(s);
    var b := TrailingWhiteSpace(s[a..]);
    TrimFrame(s, a, b);
    s[a..|s| - b]
  }

  lemma TrimFrame(s: string, a: nat, b: nat)
    requires a == LeadingWhiteSpace(s) && b == TrailingWhiteSpace(s[a..])
    ensures var r := s[a..|s| - b];
            && IsWhiteSpaceFrame(s, a, r)
            && (r != [] ==> !IsWhiteSpace(r[0]) && !IsWhiteSpace(r[|r| - 1]))
            && (r == [] <==> AllWhiteSpace(s))
  {
    var rest := s[a..];
    var head, tail := s[..a], s[|s| - b..];
    forall i | 0 <= i < |head| ensures IsWhiteSpace(head[i]) {
      assert head[i] == s[i];
    }
    forall i | 0 <= i < |tail| ensures IsWhiteSpace(tail[i]) {
      assert tail[i] == rest[|rest| - b + i];
    }
    var r := s[a..|s| - b];
    if r != [] {
      assert r[0] == s[a];
      assert r[|r| - 1] == rest[|rest| - b - 1];
    }
  }

  /** isEmpty(value): undefined and null are always empty, and only they,
      objects, arrays and strings can be. */
  function IsEmpty(v: JsValue): (e: bool)
    ensures v.Undefined? || v.Null? ==> e
    ensures e ==> v.Undefined? || v.Null? || v.Obj? || v.Arr? || v.Str?
  {
    if v.Undefined? || v.Null? then true
    else if TypeOf(v) == "object" && OwnKeyCount(v) == 0 then true
    else if TypeOf(v) == "string" && |Trim(v.s)| == 0 then true
    else false
  }

  /** Trimming twice is trimming once. */
  lemma TrimIdempotent(s: string)
    ensures Trim(Trim(s)) == Trim(s)
  {
    var r := Trim(s);
    if r != [] {
      assert LeadingWhiteSpace(r) == 0;
      assert TrailingWhiteSpace(r) == 0;
    }
  }

  /** undefined and null are empty. */
  lemma NullishIsEmpty()
    ensures IsEmpty(Undefined) && IsEmpty(Null)
  {
  }

  /** An object, an array included, is empty exactly when it has no own keys. */
  lemma ObjectEmptyIffNoKeys(v: JsValue)
    requires v.Obj? || v.Arr?
    ensures IsEmpty(v) <==> OwnKeyCount(v) == 0
    ensures IsEmpty(Arr([])) && IsEmpty(Obj({}))
  {
  }

  /** A string is empty exactly when it is white space throughout, so `""`
      and `" \t\n"` are empty and any string with another character is not. */
  lemma StringEmptyIffWhiteSpace(s: string)
    ensures IsEmpty(Str(s)) <==> AllWhiteSpace(s)
    ensures IsEmpty(Str(s)) <==> |Trim(s)| == 0
  {
  }

  /** Trimming a string first never changes the verdict. */
  lemma StringEmptyIgnoresTrim(s: string)
    ensures IsEmpty(Str(s)) == IsEmpty(Str(Trim(s)))
  {
    TrimIdempotent(s);
  }

  /** Numbers (0 included), booleans (false included), functions, objects
      with a key and strings with a character other than white space are
      not empty. */
  lemma OtherValuesAreNotEmpty(v: JsValue)
    requires v.Num? || v.Bool? || v.Func?
          || (v.Obj? && v.keys != {}) || (v.Arr? && v.items != [])
          || (v.Str? && !AllWhiteSpace(v.s))
    ensures !IsEmpty(v)
  {
  }

  /** `isEmpty` against an independent statement of which values are empty. */
  lemma IsEmptyExactly(v: JsValue)
    ensures IsEmpty(v) <==>
      match v
      case Undefined => true
      case Null => true
      case Obj(keys) => keys == {}
      case Arr(items) => items == []
      case Str(s) => AllWhiteSpace(s)
      case _ => false
  {
  }
}
