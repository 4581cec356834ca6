/** Vocabulary shared by every part of the REST management API model: optional values,
    the HTTP verbs of the hosting framework, and the string operations the handlers and
    the access evaluator rely on (prefix tests, dotted-key segments, ASCII case folding,
    literal substring removal and joining). */
module Common {

  datatype Option<+T> = None | Some(value: T)

  /** The request methods of the hosting REST framework. */
  datatype Method = GET | POST | PUT | DELETE | OPTIONS | HEAD
  {
    function Name(): string
    {
      match this
      case GET => "GET"
      case POST => "POST"
      case PUT => "PUT"
      case DELETE => "DELETE"
      case OPTIONS => "OPTIONS"
      case HEAD => "HEAD"
    }
  }

  /** The part of a dotted settings key before its first '.', or the whole key when it has none
      (what the settings library reports as the key's top-level name). */
  function FirstSegment(k: string): (r: string)
    ensures r <= k
    ensures '.' !in r
    ensures |r| < |k| ==> k[|r|] == '.'
  {
    if k == [] || k[0] == '.' then [] else [k[0]] + FirstSegment(k[1..])
  }

  /** For a name without a dot, "name." starts a key exactly when the key's first segment is
      that name and the key goes on past it. */
  lemma {:induction false} DottedPrefixIsFirstSegment(name: string, k: string)
    requires '.' !in name
    ensures name + "." <= k <==> (FirstSegment(k) == name && |name| < |k|)
  {
    if name == [] {
      assert name + "." == ".";
    } else if k != [] && k[0] == name[0] {
      DottedPrefixIsFirstSegment(name[1..], k[1..]);
      assert (name + ".")[1..] == name[1..] + ".";
      assert name + "." == [name[0]] + (name[1..] + ".");
    } else {
      assert name + "." == [name[0]] + (name[1..] + ".");
    }
  }

  /** Case folding of a single character as far as ASCII letters go. */
  function UpperChar(c: char): char
  {
    if 'a' <= c <= 'z' then (c as int - 32) as char else c
  }

  /** `String.toUpperCase` restricted to ASCII letters. */
  function Upper(s: string): (r: string)
    ensures |r| == |s|
    ensures forall i :: 0 <= i < |s| ==> r[i] == UpperChar(s[i])
  {
    seq(|s|, i requires 0 <= i < |s| => UpperChar(s[i]))
  }

  /** `String.equalsIgnoreCase` restricted to ASCII letters. */
  predicate EqualsIgnoreCase(a: string, b: string)
  {
    Upper(a) == Upper(b)
  }

  /** `s.replaceAll(pattern, "")` for a pattern without regular-expression metacharacters:
      every non-overlapping occurrence, scanning left to right, is deleted. An empty pattern
      leaves the string unchanged. */
  function RemoveAll(s: string, pattern: string): (r: string)
    ensures |r| <= |s|
    decreases |s|
  {
    if pattern == [] || s == [] then s
    else if pattern <= s then RemoveAll(s[|pattern|..], pattern)
    else [s[0]] + RemoveAll(s[1..], pattern)
  }

  /** A string that does not contain the pattern (at any position) comes back unchanged. */
  lemma {:induction false} RemoveAllAbsent(s: string, pattern: string)
    requires forall i :: 0 <= i <= |s| ==> !(pattern <= s[i..])
    ensures RemoveAll(s, pattern) == s
    decreases |s|
  {
    if pattern == [] || s == [] {
    } else {
      assert s[0..] == s;
      forall i | 0 <= i <= |s[1..]| ensures !(pattern <= s[1..][i..]) {
        assert s[1..][i..] == s[i + 1..];
      }
      RemoveAllAbsent(s[1..], pattern);
    }
  }

  /** A pattern followed by a rest that does not contain it loses exactly the pattern. */
  lemma RemoveAllLeading(pattern: string, rest: string)
    requires pattern != []
    requires forall i :: 0 <= i <= |rest| ==> !(pattern <= rest[i..])
    ensures RemoveAll(pattern + rest, pattern) == rest
  {
    var s := pattern + rest;
    if rest == [] {
      assert s[|pattern|..] == [];
    } else {
      assert s[|pattern|..] == rest;
    }
    RemoveAllAbsent(rest, pattern);
  }

  /** `Joiner.on(sep).join(xs)`. */
  function Join(xs: seq<string>, sep: string): string
  {
    if xs == [] then ""
    else if |xs| == 1 then xs[0]
    else xs[0] + sep + Join(xs[1..], sep)
  }

  /** `AbstractCollection.toString` of a collection iterated in the order `xs`. */
  function ListText(xs: seq<string>): string
  {
    "[" + Join(xs, ", ") + "]"
  }
}
