/**
 * Identifiers of leaf channels. An accessor wrapper extends its scope with the
 * arguments it is called with (`scope.concat(args)`) and a leaf channel is
 * registered under the `'/'`-join of that scope; a single-channel root source
 * is registered under `':root'`.
 */
module Identifier {

  const Separator: char := '/'

  /** Identifier of a driver whose source is a single channel. */
  const RootIdentifier: string := ":root"

  /** `Array.prototype.join('/')` on string elements. */
  function Join(parts: seq<string>): (r: string)
    ensures |parts| >= 1 ==> IsPrefix(parts[0], r)
    ensures |parts| >= 2 ==> |parts[0]| < |r| && r[|parts[0]|] == Separator
  {
    if |parts| == 0 then ""
    else if |parts| == 1 then parts[0]
    else parts[0] + [Separator] + Join(parts[1..])
  }

  /** `String.prototype.split('/')`: the inverse partner of `Join`. */
  function Split(s: string): (parts: seq<string>)
    ensures |parts| >= 1
  {
    if |s| == 0 then [""]
    else
      var rest := Split(s[1..]);
      if s[0] == Separator then [""] + rest
      else [[s[0]] + rest[0]] + rest[1..]
  }

  /** The scope an accessor call hands to what it returns. */
  function Extend(scope: seq<string>, args: seq<string>): (r: seq<string>)
    ensures |r| == |scope| + |args|
    ensures r[..|scope|] == scope && r[|scope|..] == args
  {
    scope + args
  }

  /** No part contains the separator. */
  predicate SeparatorFree(parts: seq<string>)
  {
    forall i :: 0 <= i < |parts| ==> Separator !in parts[i]
  }

  /** `t` is a prefix of `s`. */
  predicate IsPrefix(t: string, s: string)
  {
    |t| <= |s| && s[..|t|] == t
  }

  /** `s.indexOf(sub) !== -1`. */
  predicate Contains(s: string, sub: string): (b: bool)
    ensures b ==> |sub| <= |s|
    ensures |sub| == 0 ==> b
  {
    IsPrefix(sub, s) || (|s| > 0 && Contains(s[1..], sub))
  }

  /** `sub` occurs in `s` starting at position `i`. */
  predicate OccursAt(s: string, sub: string, i: int)
  {
    0 <= i && i + |sub| <= |s| && s[i..i + |sub|] == sub
  }

  /** `Contains` agrees with the occurrence-at-some-position reading of `indexOf`. */
  lemma {:induction false} ContainsIff(s: string, sub: string)
    ensures Contains(s, sub) <==> exists i :: OccursAt(s, sub, i)
  {
    if IsPrefix(sub, s) {
      assert OccursAt(s, sub, 0);
    } else if |s| > 0 {
      ContainsIff(s[1..], sub);
      if exists i :: OccursAt(s, sub, i) {
        var i :| OccursAt(s, sub, i);
        if i > 0 {
          assert s[1..][i - 1..i - 1 + |sub|] == sub;
          assert OccursAt(s[1..], sub, i - 1);
        }
      }
      if exists j :: OccursAt(s[1..], sub, j) {
        var j :| OccursAt(s[1..], sub, j);
        assert s[j + 1..j + 1 + |sub|] == sub;
        assert OccursAt(s, sub, j + 1);
      }
    }
  }

  /** Joining a nested scope is joining the parent scope, a separator and the child arguments. */
  lemma {:induction false} JoinAppend(a: seq<string>, b: seq<string>)
    requires |a| > 0 && |b| > 0
    ensures Join(a + b) == Join(a) + [Separator] + Join(b)
  {
    if |a| == 1 {
      assert (a + b)[1..] == b;
    } else {
      assert (a + b)[1..] == a[1..] + b;
      JoinAppend(a[1..], b);
    }
  }

  /** Splitting a separator-free string yields that string alone. */
  lemma {:induction false} SplitPlain(s: string)
    requires Separator !in s
    ensures Split(s) == [s]
  {
    if |s| > 0 {
      assert Separator !in s[1..];
      SplitPlain(s[1..]);
      assert [s[0]] + s[1..] == s;
    }
  }

  /** Splitting at the first separator. */
  lemma {:induction false} SplitAfter(a: string, b: string)
    requires Separator !in a
    ensures Split(a + [Separator] + b) == [a] + Split(b)
  {
    if |a| == 0 {
      assert a + [Separator] + b == [Separator] + b;
      assert ([Separator] + b)[1..] == b;
    } else {
      var s := a + [Separator] + b;
      assert s[1..] == a[1..] + [Separator] + b;
      assert Separator !in a[1..];
      SplitAfter(a[1..], b);
      assert [a[0]] + a[1..] == a;
    }
  }

  /** Round trip: a separator-free scope is recovered from its identifier. */
  lemma {:induction false} SplitJoin(parts: seq<string>)
    requires |parts| >= 1 && SeparatorFree(parts)
    ensures Split(Join(parts)) == parts
  {
    if |parts| == 1 {
      assert Separator !in parts[0];
      SplitPlain(parts[0]);
    } else {
      assert Separator !in parts[0];
      SplitAfter(parts[0], Join(parts[1..]));
      assert SeparatorFree(parts[1..]) by {
        forall i | 0 <= i < |parts[1..]| ensures Separator !in parts[1..][i] {
          assert parts[1..][i] == parts[i + 1];
        }
      }
      SplitJoin(parts[1..]);
      assert [parts[0]] + parts[1..] == parts;
    }
  }

  /** Prepending a character to the first part prepends it to the join. */
  lemma {:induction false} JoinConsFirst(c: char, parts: seq<string>)
    requires |parts| >= 1
    ensures Join([[c] + parts[0]] + parts[1..]) == [c] + Join(parts)
  {
    var head := [c] + parts[0];
    var grown := [head] + parts[1..];
    assert |grown| == |parts|;
    assert grown[0] == head;
    if |parts| == 1 {
      assert Join(grown) == head;
    } else {
      var tail := Join(parts[1..]);
      assert grown[1..] == parts[1..];
      assert Join(grown) == head + [Separator] + tail;
      assert Join(parts) == parts[0] + [Separator] + tail;
      assert head + [Separator] + tail == [c] + (parts[0] + [Separator] + tail);
    }
  }

  /** Round trip the other way: every string is the join of its split. */
  lemma {:induction false} JoinSplit(s: string)
    ensures Join(Split(s)) == s
  {
    if |s| > 0 {
      var rest := Split(s[1..]);
      JoinSplit(s[1..]);
      assert [s[0]] + s[1..] == s;
      if s[0] == Separator {
        assert ([""] + rest)[1..] == rest;
      } else {
        JoinConsFirst(s[0], rest);
      }
    }
  }

  /**
   * Identifiers of non-empty separator-free scopes are equal exactly when the
   * scopes are: two navigations yield the same identifier iff they pass the
   * same arguments. The empty scope is excluded because it collides with the
   * scope of one empty argument (`EmptyScopeCollision`).
   */
  lemma JoinInjective(p: seq<string>, q: seq<string>)
    requires |p| >= 1 && |q| >= 1 && SeparatorFree(p) && SeparatorFree(q)
    ensures Join(p) == Join(q) <==> p == q
  {
    if Join(p) == Join(q) {
      SplitJoin(p);
      SplitJoin(q);
    }
  }

  /** Arguments that contain the separator can make two different navigations collide. */
  lemma SeparatorCollision()
    ensures Join(["a/b"]) == Join(["a", "b"])
  {
  }

  /** A call with no arguments and a call with one empty argument get the same identifier. */
  lemma EmptyScopeCollision()
    ensures Join([]) == Join([""]) == ""
  {
  }
}
