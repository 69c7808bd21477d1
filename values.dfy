/** JSON values as the plugin's Python code sees them after `json.loads`,
    the Python exceptions the core raises or catches, and the Python
    semantics of the few operations the core applies to a JSON value:
    `key in value`, `value[key]`, `for x in value` and truthiness. */
module Values {

  datatype Option<+T> = None | Some(value: T)

  /** A JSON value. Objects keep their members in iteration order;
      floating-point numbers are not modelled. */
  datatype Json =
    | JNull
    | JBool(b: bool)
    | JInt(i: int)
    | JStr(s: string)
    | JArr(items: seq<Json>)
    | JObj(members: seq<Member>)

  datatype Member = Member(key: string, value: Json)

  /** The exceptions that occur in the core, with the text `e.message` gives. */
  datatype Exception =
    | RuntimeError(text: string)
    | TypeError(fault: TypeFault)
    | KeyError(key: string)
    | ValueError(text: string)
    | SocketError(text: string)
    | UnicodeEncodeError(character: char, position: nat)

  /** What a `TypeError` in the core complains about: the operation and
      the value it was applied to. */
  datatype TypeFault =
    | NotIterableArgument(operand: Json)
    | IndexNotInteger(operand: Json)
    | NoGetItem(operand: Json)
    | NotIterableObject(operand: Json)
    | CannotConcatenate(operand: Json)
    | NotBuffer

  /** Python 2's wording of each `TypeError`. */
  function TypeFaultText(f: TypeFault): string
  {
    match f
    case NotIterableArgument(j) => "argument of type '" + TypeName(j) + "' is not iterable"
    // a decoded string is `unicode`, whose message omits the key's type
    case IndexNotInteger(j) => if j.JArr? then "list indices must be integers, not str" else "string indices must be integers"
    case NoGetItem(j) => "'" + TypeName(j) + "' object has no attribute '__getitem__'"
    case NotIterableObject(j) => "'" + TypeName(j) + "' object is not iterable"
    case CannotConcatenate(j) => "cannot concatenate 'str' and '" + TypeName(j) + "' objects"
    case NotBuffer => "argument must be string or read-only character buffer, not None"
  }

  /** Python's `e.message`. */
  function Message(e: Exception): string
  {
    match e
    case RuntimeError(t) => t
    case TypeError(f) => TypeFaultText(f)
    case KeyError(k) => k
    case ValueError(t) => t
    case SocketError(t) => t
    // built from several arguments, so Python 2 leaves `message` empty
    case UnicodeEncodeError(_, _) => ""
  }

  /** The result of Python code that either returns a value or raises. */
  datatype Outcome<+T> = Ok(value: T) | Raised(exc: Exception) {
    predicate IsFailure() { Raised? }

    function PropagateFailure<U>(): Outcome<U>
      requires Raised?
    {
      Raised(exc)
    }

    function Extract(): T
      requires Ok?
    {
      value
    }
  }

  /** Python's name for the type of a decoded JSON value. */
  function TypeName(j: Json): string
  {
    match j
    case JNull => "NoneType"
    case JBool(_) => "bool"
    case JInt(_) => "int"
    case JStr(_) => "unicode"
    case JArr(_) => "list"
    case JObj(_) => "dict"
  }

  predicate HasKey(ms: seq<Member>, key: string)
  {
    exists i | 0 <= i < |ms| :: ms[i].key == key
  }

  /** The value bound to `key`: the last binding wins, as when `json.loads`
      builds a dict from an object that repeats a key. */
  function Lookup(ms: seq<Member>, key: string): (v: Json)
    requires HasKey(ms, key)
    ensures exists i | 0 <= i < |ms| :: ms[i].key == key && ms[i].value == v
                                        && forall j | i < j < |ms| :: ms[j].key != key
  {
    var last := ms[|ms| - 1];
    if last.key == key then last.value
    else
      assert HasKey(ms[..|ms| - 1], key) by {
        var i :| 0 <= i < |ms| && ms[i].key == key;
        assert ms[..|ms| - 1][i].key == key;
      }
      Lookup(ms[..|ms| - 1], key)
  }

  /** Python's `needle in hay` for two strings: `needle` occurs at some
      position of `hay`. */
  predicate IsSubstring(needle: string, hay: string)
  {
    |needle| <= |hay| && (hay[..|needle|] == needle || IsSubstring(needle, hay[1..]))
  }

  /** `needle` occurs in `hay` starting at index `i`. */
  predicate OccursAt(needle: string, hay: string, i: int)
  {
    0 <= i <= |hay| - |needle| && hay[i..i + |needle|] == needle
  }

  /** The recursive test agrees with the positional reading of `in`. */
  lemma {:induction false} IsSubstringOccurs(needle: string, hay: string)
    ensures IsSubstring(needle, hay) <==> exists i :: OccursAt(needle, hay, i)
    decreases |hay|
  {
    var n := |needle|;
    if n <= |hay| {
      if hay[..n] == needle {
        assert OccursAt(needle, hay, 0);
      } else {
        var tail := hay[1..];
        IsSubstringOccurs(needle, tail);
        if IsSubstring(needle, tail) {
          var i :| OccursAt(needle, tail, i);
          assert OccursAt(needle, hay, i + 1) by {
            assert hay[1..][i..i + n] == hay[i + 1..i + 1 + n];
          }
        }
        if exists i :: OccursAt(needle, hay, i) {
          var i :| OccursAt(needle, hay, i);
          assert i != 0;
          assert OccursAt(needle, tail, i - 1) by {
            assert hay[1..][i - 1..i - 1 + n] == hay[i..i + n];
          }
        }
      }
    }
  }

  /** Python's `key in container` for a string key. */
  function Contains(container: Json, key: string): (r: Outcome<bool>)
    ensures r.Ok? <==> container.JObj? || container.JArr? || container.JStr?
  {
    match container
    case JObj(ms) => Ok(HasKey(ms, key))
    case JArr(items) => Ok(JStr(key) in items)
    case JStr(s) => Ok(IsSubstring(key, s))
    case _ => Raised(TypeError(NotIterableArgument(container)))
  }

  /** `in` asks a dict for a key, a list for an equal item and a string for
      an occurrence; anything else raises a `TypeError`. */
  lemma ContainsCases(container: Json, key: string)
    ensures container.JObj? ==> Contains(container, key) == Ok(HasKey(container.members, key))
    ensures container.JArr? ==> Contains(container, key) == Ok(JStr(key) in container.items)
    ensures container.JStr? ==>
              Contains(container, key).Ok? && (Contains(container, key).value <==> exists i :: OccursAt(key, container.s, i))
    ensures !(container.JObj? || container.JArr? || container.JStr?) ==>
              Contains(container, key) == Raised(TypeError(NotIterableArgument(container)))
  {
    if container.JStr? {
      IsSubstringOccurs(key, container.s);
    }
  }

  /** Python's `container[key]` for a string key. */
  function Subscript(container: Json, key: string): (r: Outcome<Json>)
    ensures r.Ok? <==> container.JObj? && HasKey(container.members, key)
    ensures container.JObj? && !HasKey(container.members, key) ==> r == Raised(KeyError(key))
    ensures r.Ok? ==> r.value == Lookup(container.members, key)
  {
    match container
    case JObj(ms) => if HasKey(ms, key) then Ok(Lookup(ms, key)) else Raised(KeyError(key))
    case JArr(_) => Raised(TypeError(IndexNotInteger(container)))
    case JStr(_) => Raised(TypeError(IndexNotInteger(container)))
    case _ => Raised(TypeError(NoGetItem(container)))
  }

  /** The values `for x in j` visits: the items of a list, the keys of a
      dict, the one-character strings of a string. */
  function Elements(j: Json): (r: Outcome<seq<Json>>)
    ensures j.JArr? ==> r == Ok(j.items)
    ensures r.Ok? <==> j.JArr? || j.JObj? || j.JStr?
    ensures j.JObj? ==>
              |r.value| == |j.members| && forall i | 0 <= i < |j.members| :: r.value[i] == JStr(j.members[i].key)
    ensures j.JStr? ==> |r.value| == |j.s| && forall i | 0 <= i < |j.s| :: r.value[i] == JStr([j.s[i]])
  {
    match j
    case JArr(items) => Ok(items)
    case JObj(ms) => Ok(seq(|ms|, i requires 0 <= i < |ms| => JStr(ms[i].key)))
    case JStr(s) => Ok(seq(|s|, i requires 0 <= i < |s| => JStr([s[i]])))
    case _ => Raised(TypeError(NotIterableObject(j)))
  }

  /** Python's `prefix + value` for a `str` prefix: defined only for strings. */
  function Concat(prefix: string, j: Json): (r: Outcome<string>)
    ensures r.Ok? <==> j.JStr?
    ensures j.JStr? ==> r.value == prefix + j.s
  {
    if j.JStr? then Ok(prefix + j.s)
    else Raised(TypeError(CannotConcatenate(j)))
  }

  /** Every character of `s` is ASCII. */
  predicate IsAscii(s: string)
  {
    forall i | 0 <= i < |s| :: s[i] as int < 128
  }

  /** The index of the first character of `s` that is not ASCII. */
  function FirstNonAscii(s: string): (k: nat)
    requires !IsAscii(s)
    ensures k < |s| && s[k] as int >= 128
    ensures forall i | 0 <= i < k :: s[i] as int < 128
  {
    if s[0] as int >= 128 then 0
    else
      assert !IsAscii(s[1..]) by {
        var i :| 0 <= i < |s| && s[i] as int >= 128;
        assert s[1..][i - 1] == s[i];
      }
      1 + FirstNonAscii(s[1..])
  }

  /** Python 2's `str.format` substituting one decoded value into a `str`
      template: a unicode value is encoded to ASCII, which fails at its
      first non-ASCII character; other values format as their `str`. */
  function FormatValue(j: Json): (r: Outcome<()>)
    ensures r.Ok? <==> !j.JStr? || IsAscii(j.s)
    ensures r.Raised? ==>
              var k := FirstNonAscii(j.s);
              r.exc == UnicodeEncodeError(j.s[k], k)
  {
    if j.JStr? && !IsAscii(j.s) then
      var k := FirstNonAscii(j.s);
      Raised(UnicodeEncodeError(j.s[k], k))
    else Ok(())
  }

  /** Python's truth value of a decoded JSON value. */
  predicate Truthy(j: Json)
  {
    match j
    case JNull => false
    case JBool(b) => b
    case JInt(i) => i != 0
    case JStr(s) => s != ""
    case JArr(items) => items != []
    case JObj(ms) => ms != []
  }

  /** The false values: `None`, `False`, zero and the empty string, list and
      dict; every other value is true. */
  lemma TruthyCases(j: Json)
    ensures !Truthy(j) <==>
              j == JNull || j == JBool(false) || j == JInt(0) || j == JStr("") || j == JArr([]) || j == JObj([])
  {
  }

  /** A Python loop that appends `f(x)` for each `x` in order: it gives
      every result, or raises what the first failing call raises. */
  function MapAll<A, B>(f: A -> Outcome<B>, xs: seq<A>): Outcome<seq<B>>
  {
    if xs == [] then Ok([])
    else
      var init :- MapAll(f, xs[..|xs| - 1]);
      var last :- f(xs[|xs| - 1]);
      Ok(init + [last])
  }

  /** Success keeps length and order and holds each call's result, and it
      happens exactly when no call raises. */
  lemma {:induction false} MapAllEach<A, B>(f: A -> Outcome<B>, xs: seq<A>)
    ensures MapAll(f, xs).Ok? <==> forall i | 0 <= i < |xs| :: f(xs[i]).Ok?
    ensures MapAll(f, xs).Ok? ==>
              |MapAll(f, xs).value| == |xs| &&
              forall i | 0 <= i < |xs| :: MapAll(f, xs).value[i] == f(xs[i]).value
  {
    if xs != [] {
      var init := xs[..|xs| - 1];
      MapAllEach(f, init);
      assert forall i | 0 <= i < |init| :: init[i] == xs[i];
    }
  }

  /** A failure is the exception of the first call that raises. */
  lemma {:induction false} MapAllFirstFailure<A, B>(f: A -> Outcome<B>, xs: seq<A>, n: nat)
    requires n < |xs| && f(xs[n]).Raised?
    requires forall i | 0 <= i < n :: f(xs[i]).Ok?
    ensures MapAll(f, xs) == Raised(f(xs[n]).exc)
  {
    var init := xs[..|xs| - 1];
    assert forall i | 0 <= i < |init| :: init[i] == xs[i];
    if n == |xs| - 1 {
      MapAllEach(f, init);
    } else {
      MapAllFirstFailure(f, init, n);
    }
  }
}
