/**
 * Strings as sequences of characters, with the one matching primitive that every
 * lookup of the trip planner uses: case-insensitive substring containment, tried
 * over an ordered table, first match wins.
 */
module Text {
  import opened Basics

  /** ASCII lower-casing of one character (String.prototype.toLowerCase restricted to ASCII). */
  function LowerChar(c: char): char
  {
    if 'A' <= c <= 'Z' then (c as int + 32) as char else c
  }

  function Lower(s: string): (r: string)
    ensures |r| == |s|
    ensures forall i :: 0 <= i < |s| ==> r[i] == LowerChar(s[i])
  {
    seq(|s|, i requires 0 <= i < |s| => LowerChar(s[i]))
  }

  lemma LowerIdempotent(s: string)
    ensures Lower(Lower(s)) == Lower(s)
  {
  }

  predicate IsPrefix(p: string, s: string)
  {
    |p| <= |s| && s[..|p|] == p
  }

  /** String.prototype.includes: `needle` occurs somewhere in `hay` (the empty needle occurs everywhere). */
  predicate Contains(hay: string, needle: string)
    decreases |hay|
  {
    IsPrefix(needle, hay) || (|hay| > 0 && Contains(hay[1..], needle))
  }

  /** A needle holding a character the haystack lacks cannot occur in it. */
  lemma {:induction false} MissingCharNotContained(hay: string, needle: string, c: char)
    requires c in needle && c !in hay
    ensures !Contains(hay, needle)
    decreases |hay|
  {
    if |hay| > 0 {
      assert c !in hay[1..];
      MissingCharNotContained(hay[1..], needle, c);
    }
  }

  /** A needle that starts at position k of the haystack occurs in it. */
  lemma {:induction false} ContainsAt(hay: string, needle: string, k: nat)
    requires k <= |hay| && IsPrefix(needle, hay[k..])
    ensures Contains(hay, needle)
    decreases k
  {
    if k > 0 {
      assert hay[1..][k - 1..] == hay[k..];
      ContainsAt(hay[1..], needle, k - 1);
    }
  }

  /** The middle part of a concatenation occurs in it. */
  lemma ConcatContains(a: string, b: string, c: string)
    ensures Contains(a + b + c, b)
  {
    assert (a + b + c)[|a|..][..|b|] == b;
    ContainsAt(a + b + c, b, |a|);
  }

  /** Each part of a joined list occurs in the joined string. */
  lemma {:induction false} JoinContainsPart(sep: string, parts: seq<string>, i: int)
    requires 0 <= i < |parts|
    ensures Contains(Join(sep, parts), parts[i])
    decreases i
  {
    if |parts| == 1 {
      assert IsPrefix(parts[0], Join(sep, parts));
    } else if i == 0 {
      assert IsPrefix(parts[0], Join(sep, parts)) by {
        assert Join(sep, parts)[..|parts[0]|] == parts[0];
      }
    } else {
      JoinContainsPart(sep, parts[1..], i - 1);
      ContainsTransitive(Join(sep, parts), Join(sep, parts[1..]), parts[i]) by {
        assert Join(sep, parts) == parts[0] + sep + Join(sep, parts[1..]);
        ContainsAt(Join(sep, parts), Join(sep, parts[1..]), |parts[0] + sep|) by {
          assert Join(sep, parts)[|parts[0] + sep|..] == Join(sep, parts[1..]);
        }
      }
    }
  }

  /** A string occurring in a prefix of the haystack occurs in the haystack. */
  lemma {:induction false} PrefixContains(hay: string, mid: string, needle: string)
    requires IsPrefix(mid, hay) && Contains(mid, needle)
    ensures Contains(hay, needle)
    decreases |mid|
  {
    if !IsPrefix(needle, mid) {
      assert IsPrefix(mid[1..], hay[1..]) by {
        assert hay[1..][..|mid[1..]|] == hay[..|mid|][1..];
      }
      PrefixContains(hay[1..], mid[1..], needle);
    } else {
      assert hay[..|needle|] == hay[..|mid|][..|needle|];
    }
  }

  /** Containment is transitive: a needle inside a substring of the haystack is inside the haystack. */
  lemma {:induction false} ContainsTransitive(hay: string, mid: string, needle: string)
    requires Contains(hay, mid) && Contains(mid, needle)
    ensures Contains(hay, needle)
    decreases |hay|
  {
    if IsPrefix(mid, hay) {
      PrefixContains(hay, mid, needle);
    } else {
      ContainsTransitive(hay[1..], mid, needle);
    }
  }

  /** Array.prototype.some over a list of needles, each tested with includes. */
  predicate ContainsAny(hay: string, needles: seq<string>)
  {
    exists i :: 0 <= i < |needles| && Contains(hay, needles[i])
  }

  /** A needle holding a character outside the haystack's alphabet cannot occur in it. */
  lemma OutsideAlphabetNotContained(hay: string, alphabet: set<char>, needle: string, c: char)
    requires forall i :: 0 <= i < |hay| ==> hay[i] in alphabet
    requires c in needle && c !in alphabet
    ensures !Contains(hay, needle)
  {
    MissingCharNotContained(hay, needle, c);
  }

  /** No needle occurs when each one holds a character (its witness) outside the haystack's alphabet. */
  lemma NoNeedleContained(hay: string, alphabet: set<char>, needles: seq<string>, witnesses: string)
    requires forall i :: 0 <= i < |hay| ==> hay[i] in alphabet
    requires |witnesses| == |needles|
    requires forall i :: 0 <= i < |needles| ==> witnesses[i] in needles[i] && witnesses[i] !in alphabet
    ensures !ContainsAny(hay, needles)
  {
    forall i | 0 <= i < |needles|
      ensures !Contains(hay, needles[i])
    {
      OutsideAlphabetNotContained(hay, alphabet, needles[i], witnesses[i]);
    }
  }

  /** Entry `i` is the first entry of `table` whose key occurs in `hay`. */
  predicate IsFirstMatch<V>(table: seq<(string, V)>, hay: string, i: int)
  {
    && 0 <= i < |table|
    && Contains(hay, table[i].0)
    && forall j :: 0 <= j < i ==> !Contains(hay, table[j].0)
  }

  /** No key of `table` occurs in `hay`. */
  predicate NoMatch<V>(table: seq<(string, V)>, hay: string)
  {
    forall j :: 0 <= j < |table| ==> !Contains(hay, table[j].0)
  }

  /** No key of the table occurs when each one holds a character (its witness) outside the haystack's alphabet. */
  lemma NoKeyContained<V>(table: seq<(string, V)>, hay: string, alphabet: set<char>, witnesses: string)
    requires forall i :: 0 <= i < |hay| ==> hay[i] in alphabet
    requires |witnesses| == |table|
    requires forall j :: 0 <= j < |table| ==> witnesses[j] in table[j].0 && witnesses[j] !in alphabet
    ensures NoMatch(table, hay)
  {
    forall j | 0 <= j < |table|
      ensures !Contains(hay, table[j].0)
    {
      OutsideAlphabetNotContained(hay, alphabet, table[j].0, witnesses[j]);
    }
  }

  /**
   * The early-return loop `for (const [key, value] of entries) if (hay.includes(key)) return …`:
   * the index of the first key, in table order, that occurs in `hay`.
   */
  function FirstMatch<V>(table: seq<(string, V)>, hay: string): (r: Option<nat>)
    ensures r.Some? ==> IsFirstMatch(table, hay, r.value)
    ensures r.None? <==> NoMatch(table, hay)
  {
    if |table| == 0 then None
    else if Contains(hay, table[0].0) then Some(0)
    else match FirstMatch(table[1..], hay)
      case None => None
      case Some(k) => Some(k + 1)
  }

  /** The first match is unique: whichever index satisfies IsFirstMatch is the one FirstMatch returns. */
  lemma FirstMatchUnique<V>(table: seq<(string, V)>, hay: string, i: int)
    requires IsFirstMatch(table, hay, i)
    ensures FirstMatch(table, hay) == Some(i)
  {
  }

  /** The value of the first matching entry, or `default` when no key occurs. */
  function LookupFirst<V>(table: seq<(string, V)>, hay: string, default: V): (v: V)
    ensures NoMatch(table, hay) ==> v == default
    ensures forall i :: IsFirstMatch(table, hay, i) ==> v == table[i].1
  {
    match FirstMatch(table, hay)
    case None => default
    case Some(i) => table[i].1
  }

  /** The value stored under exactly `key` (a record property read), if any: the first such entry. */
  function LookupExact<V>(table: seq<(string, V)>, key: string): (r: Option<V>)
    ensures r.None? <==> forall j :: 0 <= j < |table| ==> table[j].0 != key
    ensures r.Some? ==> exists j :: 0 <= j < |table| && table[j] == (key, r.value)
  {
    if |table| == 0 then None
    else if table[0].0 == key then Some(table[0].1)
    else
      var r := LookupExact(table[1..], key);
      assert r.Some? ==> exists j :: 0 <= j < |table[1..]| && table[1..][j] == (key, r.value);
      r
  }

  /** The read by exact key returns the value of the first entry stored under that key. */
  lemma {:induction false} LookupExactFirst<V>(table: seq<(string, V)>, key: string, j: int)
    requires IsFirstKey(table, key, j)
    ensures LookupExact(table, key) == Some(table[j].1)
    decreases j
  {
    if j > 0 {
      assert IsFirstKey(table[1..], key, j - 1);
      LookupExactFirst(table[1..], key, j - 1);
    }
  }

  /** Entry j is the first entry of `table` stored under exactly `key`. */
  predicate IsFirstKey<V>(table: seq<(string, V)>, key: string, j: int)
  {
    && 0 <= j < |table|
    && table[j].0 == key
    && forall l :: 0 <= l < j ==> table[l].0 != key
  }

  function DigitChar(d: nat): (c: char)
    requires d < 10
    ensures '0' <= c <= '9' && c as int - '0' as int == d
  {
    ('0' as int + d) as char
  }

  /** The number a string of decimal digits spells, most significant digit first. */
  function DigitsValue(s: string): nat
    requires forall i :: 0 <= i < |s| ==> '0' <= s[i] <= '9'
  {
    if |s| == 0 then 0 else DigitsValue(s[..|s| - 1]) * 10 + (s[|s| - 1] as int - '0' as int)
  }

  /** The decimal text of a natural number, as a template literal prints it: no leading zero. */
  function NatToString(n: nat): (s: string)
    ensures |s| >= 1
    ensures forall i :: 0 <= i < |s| ==> '0' <= s[i] <= '9'
    ensures DigitsValue(s) == n
    ensures |s| == 1 || s[0] != '0'
  {
    if n < 10 then [DigitChar(n)]
    else
      var t := NatToString(n / 10);
      var s := t + [DigitChar(n % 10)];
      assert s[..|s| - 1] == t;
      assert DigitsValue(s) == DigitsValue(t) * 10 + n % 10;
      assert s[0] == t[0];
      assert n / 10 >= 1 && (|t| == 1 ==> t == [DigitChar(n / 10)]);
      s
  }

  function IntToString(n: int): string
  {
    if n < 0 then "-" + NatToString(-n) else NatToString(n)
  }

  /** Array.prototype.join. */
  function Join(sep: string, parts: seq<string>): string
  {
    if |parts| == 0 then ""
    else if |parts| == 1 then parts[0]
    else parts[0] + sep + Join(sep, parts[1..])
  }
}
