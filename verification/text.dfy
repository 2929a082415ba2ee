/** Text as Python and JavaScript compare, search and re-case it: by code points, with case
    conversion of ASCII letters only. */
module Text {

  predicate Contains(s: string, part: string) {
    part <= s || (s != "" && Contains(s[1..], part))
  }

  lemma {:induction false} ContainsPart(before: string, part: string, after: string)
    ensures Contains(before + part + after, part)
  {
    var s := before + part + after;
    if before == "" {
      assert s[..|part|] == part;
    } else {
      ContainsPart(before[1..], part, after);
      assert s[1..] == before[1..] + part + after;
    }
  }

  lemma {:induction false} PartFound(s: string, part: string) returns (before: string, after: string)
    requires Contains(s, part)
    ensures s == before + part + after
  {
    if part <= s {
      before, after := "", s[|part|..];
    } else {
      before, after := PartFound(s[1..], part);
      before := [s[0]] + before;
    }
  }

  lemma {:induction false} ContainsMeans(s: string, part: string)
    ensures Contains(s, part) <==> exists before, after :: s == before + part + after
  {
    if Contains(s, part) {
      var before, after := PartFound(s, part);
    }
    if before, after :| s == before + part + after {
      ContainsPart(before, part, after);
    }
  }

  /** Upper and lower case change ASCII letters one by one and nothing else. */
  lemma {:induction false} CaseMeans(s: string, i: nat)
    requires i < |s|
    ensures |Upper(s)| == |Lower(s)| == |s|
    ensures 'a' <= s[i] <= 'z' ==> Upper(s)[i] as int - 'A' as int == s[i] as int - 'a' as int && Lower(s)[i] == s[i]
    ensures 'A' <= s[i] <= 'Z' ==> Lower(s)[i] as int - 'a' as int == s[i] as int - 'A' as int && Upper(s)[i] == s[i]
    ensures !('a' <= s[i] <= 'z') && !('A' <= s[i] <= 'Z') ==> Upper(s)[i] == Lower(s)[i] == s[i]
  {
    if i > 0 {
      CaseMeans(s[1..], i - 1);
    } else if |s| > 1 {
      CaseMeans(s[1..], 0);
    }
  }

  function Upper(s: string): string {
    if s == "" then "" else
      [if 'a' <= s[0] <= 'z' then ((s[0] as int) - 32) as char else s[0]] + Upper(s[1..])
  }

  function Lower(s: string): string {
    if s == "" then "" else
      [if 'A' <= s[0] <= 'Z' then ((s[0] as int) + 32) as char else s[0]] + Lower(s[1..])
  }

  // ---------------------------------------------------------------- order

  predicate AtMost(a: string, b: string) {
    a == "" || (b != "" && (a[0] < b[0] || (a[0] == b[0] && AtMost(a[1..], b[1..]))))
  }

  predicate Less(a: string, b: string) {
    a != b && AtMost(a, b)
  }

  function Max(a: string, b: string): string {
    if AtMost(a, b) then b else a
  }

  lemma Reflexive(a: string)
    ensures AtMost(a, a)
  {
  }

  lemma Total(a: string, b: string)
    ensures AtMost(a, b) || AtMost(b, a)
  {
  }

  lemma {:induction false} Antisymmetric(a: string, b: string)
    requires AtMost(a, b) && AtMost(b, a)
    ensures a == b
  {
    if a != "" {
      Antisymmetric(a[1..], b[1..]);
      assert a == [a[0]] + a[1..] && b == [b[0]] + b[1..];
    }
  }

  lemma {:induction false} Transitive(a: string, b: string, c: string)
    requires AtMost(a, b) && AtMost(b, c)
    ensures AtMost(a, c)
  {
    if a != "" && a[0] == b[0] == c[0] {
      Transitive(a[1..], b[1..], c[1..]);
    }
  }

  lemma {:induction false} MaxOrder(a: string, b: string, c: string)
    ensures Max(a, b) == Max(b, a)
    ensures Max(a, Max(b, c)) == Max(Max(a, b), c)
    ensures Max(a, a) == a && Max("", a) == a
    ensures AtMost(a, b) <==> Max(a, b) == b
  {
    hide AtMost;
    Reflexive(a);
    Least(a);
    Total(a, b);
    Total(b, c);
    Total(a, c);
    if AtMost(a, b) && AtMost(b, a) { Antisymmetric(a, b); }
    if AtMost(a, b) && AtMost(b, c) { Transitive(a, b, c); }
    if AtMost(a, c) && AtMost(c, b) { Transitive(a, c, b); }
    if AtMost(b, a) && AtMost(a, c) { Transitive(b, a, c); }
    if AtMost(c, b) && AtMost(b, a) { Transitive(c, b, a); }
    if AtMost(c, a) && AtMost(a, b) { Transitive(c, a, b); }
    if AtMost(b, c) && AtMost(c, a) { Transitive(b, c, a); }
    if AtMost(b, c) && AtMost(c, b) { Antisymmetric(b, c); }
    if AtMost(a, c) && AtMost(c, a) { Antisymmetric(a, c); }
  }

  lemma Least(a: string)
    ensures AtMost("", a)
  {
  }

  /** The order is that of a dictionary: a text comes before its extensions, and otherwise the first
      code point that differs decides. */
  lemma {:induction false} AtMostMeans(a: string, b: string)
    ensures AtMost(a, b) <==> exists i ::
      0 <= i <= |a| && i <= |b| && a[..i] == b[..i] && (i == |a| || (i < |b| && a[i] < b[i]))
  {
    if a == "" {
      assert a[..0] == b[..0];
    } else if b != "" && a[0] == b[0] {
      AtMostMeans(a[1..], b[1..]);
      if AtMost(a, b) {
        var i :| 0 <= i <= |a[1..]| && i <= |b[1..]| && a[1..][..i] == b[1..][..i]
                 && (i == |a[1..]| || (i < |b[1..]| && a[1..][i] < b[1..][i]));
        assert a[..i + 1] == [a[0]] + a[1..][..i] && b[..i + 1] == [b[0]] + b[1..][..i];
      } else {
        forall i | 0 <= i <= |a| && i <= |b| && a[..i] == b[..i]
          ensures !(i == |a| || (i < |b| && a[i] < b[i])) {
          if i > 0 {
            assert a[1..][..i - 1] == a[..i][1..] == b[..i][1..] == b[1..][..i - 1];
          }
        }
      }
    } else if b != "" {
      if a[0] < b[0] {
        assert a[..0] == b[..0];
      } else {
        assert forall i :: 1 <= i <= |a| && i <= |b| ==> a[..i][0] != b[..i][0];
      }
    }
  }
}
