/**
 * The cache key of a blog block: its class name, ID, LastEdited, the number
 * of its posts and the latest LastEdited among them, joined with '-'.
 */
module CacheKeys {
  import opened Collaborators

  const Separator: char := '-'

  predicate IsDigit(c: char) { '0' <= c <= '9' }

  predicate AllDigits(s: string) { forall i :: 0 <= i < |s| ==> IsDigit(s[i]) }

  /** No character of `s` is the separator. */
  predicate SeparatorFree(s: string) { Separator !in s }

  function DigitChar(d: nat): (c: char)
    requires d < 10
    ensures IsDigit(c)
  {
    ('0' as int + d) as char
  }

  /** An integer as PHP converts it to a string: its decimal digits. */
  function Decimal(n: nat): (s: string)
    ensures |s| > 0 && AllDigits(s)
    decreases n
  {
    if n < 10 then [DigitChar(n)] else Decimal(n / 10) + [DigitChar(n % 10)]
  }

  /** The number a string of decimal digits denotes. */
  function DecimalValue(s: string): nat
    requires AllDigits(s)
  {
    if s == [] then 0
    else DecimalValue(s[..|s| - 1]) * 10 + (s[|s| - 1] as int - '0' as int)
  }

  /** Reading back the digits of `n` gives `n`. */
  lemma {:induction false} DecimalRoundTrip(n: nat)
    ensures DecimalValue(Decimal(n)) == n
    decreases n
  {
    var s := Decimal(n);
    if n >= 10 {
      DecimalRoundTrip(n / 10);
      assert s[..|s| - 1] == Decimal(n / 10);
    }
  }

  /** Distinct integers render to distinct strings. */
  lemma DecimalInjective(a: nat, b: nat)
    ensures Decimal(a) == Decimal(b) ==> a == b
  {
    DecimalRoundTrip(a);
    DecimalRoundTrip(b);
  }

  lemma DigitsAreSeparatorFree(s: string)
    requires AllDigits(s)
    ensures SeparatorFree(s)
  {
  }

  /**
   * Lexicographic order on strings. For LastEdited values in the database's
   * 'YYYY-MM-DD HH:MM:SS' rendering it is the chronological order.
   */
  predicate LexLe(a: string, b: string)
  {
    a == [] || (b != [] && (a[0] < b[0] || (a[0] == b[0] && LexLe(a[1..], b[1..]))))
  }

  lemma {:induction false} LexLeTotal(a: string, b: string)
    ensures LexLe(a, b) || LexLe(b, a)
  {
    if a != [] && b != [] && a[0] == b[0] {
      LexLeTotal(a[1..], b[1..]);
    }
  }

  lemma {:induction false} LexLeTransitive(a: string, b: string, c: string)
    requires LexLe(a, b) && LexLe(b, c)
    ensures LexLe(a, c)
  {
    if a != [] && a[0] == b[0] && b[0] == c[0] {
      LexLeTransitive(a[1..], b[1..], c[1..]);
    }
  }

  lemma {:induction false} LexLeAntisymmetric(a: string, b: string)
    requires LexLe(a, b) && LexLe(b, a)
    ensures a == b
  {
    if a != [] && b != [] {
      LexLeAntisymmetric(a[1..], b[1..]);
      assert a == [a[0]] + a[1..];
      assert b == [b[0]] + b[1..];
    }
  }

  /**
   * The latest LastEdited among `posts` (SQL MAX over the column), None when
   * there are no posts.
   */
  function LatestEdit(posts: PostList): (m: Option<string>)
    ensures m.None? <==> |posts| == 0
  {
    if |posts| == 0 then None
    else
      var rest := LatestEdit(posts[1..]);
      if rest.None? || LexLe(rest.value, posts[0].lastEdited) then Some(posts[0].lastEdited) else rest
  }

  /** The latest edit is the LastEdited of some post, and no post's exceeds it. */
  lemma {:induction false} LatestEditIsMaximum(posts: PostList)
    requires |posts| > 0
    ensures exists i :: 0 <= i < |posts| && posts[i].lastEdited == LatestEdit(posts).value
    ensures forall i :: 0 <= i < |posts| ==> LexLe(posts[i].lastEdited, LatestEdit(posts).value)
  {
    var head := posts[0].lastEdited;
    LexLeTotal(head, head);
    if |posts| > 1 {
      var tail := posts[1..];
      LatestEditIsMaximum(tail);
      var rest := LatestEdit(tail).value;
      assert forall i :: 1 <= i < |posts| ==> posts[i] == tail[i - 1];
      if LexLe(rest, head) {
        forall i | 1 <= i < |posts|
          ensures LexLe(posts[i].lastEdited, head)
        {
          LexLeTransitive(posts[i].lastEdited, rest, head);
        }
      } else {
        LexLeTotal(rest, head);
        var k :| 0 <= k < |tail| && tail[k].lastEdited == rest;
        assert posts[k + 1].lastEdited == rest;
      }
    }
  }

  /** One step of LatestEdit: the first post against the latest of the others. */
  lemma LatestEditStep(p: Post, rest: PostList)
    ensures LatestEdit([p] + rest)
         == if LatestEdit(rest).None? || LexLe(LatestEdit(rest).value, p.lastEdited)
            then Some(p.lastEdited) else LatestEdit(rest)
  {
    assert ([p] + rest)[1..] == rest;
  }

  /**
   * The latest edit does not depend on how it is computed: any value some
   * post has and no post exceeds is the one LatestEdit gives.
   */
  lemma LatestEditUnique(posts: PostList, m: string)
    requires exists i :: 0 <= i < |posts| && posts[i].lastEdited == m
    requires forall i :: 0 <= i < |posts| ==> LexLe(posts[i].lastEdited, m)
    ensures LatestEdit(posts) == Some(m)
  {
    LatestEditIsMaximum(posts);
    var l := LatestEdit(posts);
    var j :| 0 <= j < |posts| && posts[j].lastEdited == l.value;
    var k :| 0 <= k < |posts| && posts[k].lastEdited == m;
    LexLeAntisymmetric(l.value, m);
  }

  /** PHP's implode: the parts with the separator between consecutive ones. */
  function Implode(sep: char, parts: seq<string>): string
  {
    if |parts| == 0 then ""
    else if |parts| == 1 then parts[0]
    else parts[0] + [sep] + Implode(sep, parts[1..])
  }

  /** A PHP null converts to the empty string. */
  function NullableText(m: Option<string>): string
  {
    if m.Some? then m.value else ""
  }

  /** The five components of the key, in order. */
  function KeyParts(className: string, id: nat, lastEdited: string, posts: PostList): seq<string>
  {
    [className, Decimal(id), lastEdited, Decimal(|posts|), NullableText(LatestEdit(posts))]
  }

  /** The cache key, before the `updateCacheKey` hook. */
  function CacheKey(className: string, id: nat, lastEdited: string, posts: PostList): string
  {
    Implode(Separator, KeyParts(className, id, lastEdited, posts))
  }

  /** Imploding five parts puts a single separator between each two. */
  lemma ImplodeFive(a: string, b: string, c: string, d: string, e: string)
    ensures Implode(Separator, [a, b, c, d, e]) == a + "-" + (b + "-" + (c + "-" + (d + "-" + e)))
  {
    assert Implode(Separator, [e]) == e;
    assert [d, e][1..] == [e];
    assert Implode(Separator, [d, e]) == d + "-" + e;
    assert [c, d, e][1..] == [d, e];
    assert Implode(Separator, [c, d, e]) == c + "-" + (d + "-" + e);
    assert [b, c, d, e][1..] == [c, d, e];
    assert Implode(Separator, [b, c, d, e]) == b + "-" + (c + "-" + (d + "-" + e));
    assert [a, b, c, d, e][1..] == [b, c, d, e];
  }

  /** The key is the five components, in order, with a single '-' between each two. */
  lemma CacheKeyLayout(className: string, id: nat, lastEdited: string, posts: PostList)
    ensures CacheKey(className, id, lastEdited, posts)
         == className + "-" + (Decimal(id) + "-" + (lastEdited + "-" + (Decimal(|posts|) + "-"
            + NullableText(LatestEdit(posts)))))
  {
    ImplodeFive(className, Decimal(id), lastEdited, Decimal(|posts|), NullableText(LatestEdit(posts)));
  }

  /** Two strings free of the separator, each followed by it, split the same way. */
  lemma SplitAtSeparator(a: string, x: string, b: string, y: string)
    requires SeparatorFree(a) && SeparatorFree(b)
    requires a + "-" + x == b + "-" + y
    ensures a == b && x == y
  {
    var l, r := a + "-" + x, b + "-" + y;
    var k := if |a| <= |b| then |a| else |b|;
    assert l[k] == r[k];
    assert a == l[..|a|];
    assert b == l[..|b|];
    assert x == l[|a| + 1..];
    assert y == (b + "-" + y)[|b| + 1..];
  }

  /** Two prefixes of the same length, each followed by the separator, split the same way. */
  lemma SplitAtLength(a: string, x: string, b: string, y: string)
    requires |a| == |b|
    requires a + "-" + x == b + "-" + y
    ensures a == b && x == y
  {
    var l := a + "-" + x;
    assert a == l[..|a|];
    assert b == l[..|b|];
    assert x == l[|a| + 1..];
    assert y == (b + "-" + y)[|b| + 1..];
  }

  /**
   * Two blocks whose class names contain no '-' and whose LastEdited values
   * have the same width (as every 'YYYY-MM-DD HH:MM:SS' value has) get the
   * same key only when class name, ID, LastEdited, post count and latest
   * post edit all agree: a change of any of them changes the key.
   */
  lemma CacheKeyInjective(c1: string, id1: nat, e1: string, p1: PostList,
                          c2: string, id2: nat, e2: string, p2: PostList)
    requires SeparatorFree(c1) && SeparatorFree(c2)
    requires |e1| == |e2|
    requires CacheKey(c1, id1, e1, p1) == CacheKey(c2, id2, e2, p2)
    ensures c1 == c2 && id1 == id2 && e1 == e2 && |p1| == |p2|
    ensures LatestEdit(p1) == LatestEdit(p2)
  {
    CacheKeyLayout(c1, id1, e1, p1);
    CacheKeyLayout(c2, id2, e2, p2);
    DigitsAreSeparatorFree(Decimal(id1));
    DigitsAreSeparatorFree(Decimal(id2));
    DigitsAreSeparatorFree(Decimal(|p1|));
    DigitsAreSeparatorFree(Decimal(|p2|));
    FivePartsInjective(c1, Decimal(id1), e1, Decimal(|p1|), NullableText(LatestEdit(p1)),
                       c2, Decimal(id2), e2, Decimal(|p2|), NullableText(LatestEdit(p2)));
    DecimalInjective(id1, id2);
    DecimalInjective(|p1|, |p2|);
    if LatestEdit(p1).Some? {
      assert LatestEdit(p2).Some?;
    }
  }

  /**
   * Five parts joined with '-' are recovered from the result when the first,
   * second and fourth contain no '-' and the third has a known width.
   */
  lemma FivePartsInjective(a1: string, b1: string, c1: string, d1: string, e1: string,
                           a2: string, b2: string, c2: string, d2: string, e2: string)
    requires SeparatorFree(a1) && SeparatorFree(b1) && SeparatorFree(d1)
    requires SeparatorFree(a2) && SeparatorFree(b2) && SeparatorFree(d2)
    requires |c1| == |c2|
    requires a1 + "-" + (b1 + "-" + (c1 + "-" + (d1 + "-" + e1)))
          == a2 + "-" + (b2 + "-" + (c2 + "-" + (d2 + "-" + e2)))
    ensures a1 == a2 && b1 == b2 && c1 == c2 && d1 == d2 && e1 == e2
  {
    SplitAtSeparator(a1, b1 + "-" + (c1 + "-" + (d1 + "-" + e1)), a2, b2 + "-" + (c2 + "-" + (d2 + "-" + e2)));
    SplitAtSeparator(b1, c1 + "-" + (d1 + "-" + e1), b2, c2 + "-" + (d2 + "-" + e2));
    SplitAtLength(c1, d1 + "-" + e1, c2, d2 + "-" + e2);
    SplitAtSeparator(d1, e1, d2, e2);
  }

  lemma LatestOfOne(p: Post)
    ensures LatestEdit([p]) == Some(p.lastEdited)
  {
    LatestEditStep(p, []);
    assert [p] == [p] + [];
  }

  lemma LatestOfTwoEqual(p1: Post, p2: Post)
    requires p1.lastEdited == p2.lastEdited
    ensures LatestEdit([p1, p2]) == Some(p1.lastEdited)
  {
    LatestOfOne(p2);
    LexLeTotal(p1.lastEdited, p1.lastEdited);
    LatestEditStep(p1, [p2]);
    assert [p1, p2] == [p1] + [p2];
  }

  /**
   * Without the equal-width condition the key does not tell blocks apart: a
   * LastEdited of "a-1" with two posts and one of "a" with a single post give
   * the same key.
   */
  lemma CacheKeyCollision()
    ensures CacheKey("B", 7, "a-1", [Post(1, "x"), Post(2, "x")])
         == CacheKey("B", 7, "a", [Post(1, "2-x")])
  {
    var two := [Post(1, "x"), Post(2, "x")];
    var one := [Post(1, "2-x")];
    LatestOfTwoEqual(Post(1, "x"), Post(2, "x"));
    LatestOfOne(Post(1, "2-x"));
    assert Decimal(7) == "7" && Decimal(2) == "2" && Decimal(1) == "1";
    CacheKeyLayout("B", 7, "a-1", two);
    CacheKeyLayout("B", 7, "a", one);
  }
}
