/** Secret redaction in log messages and log records (`LogRedactor`). */
module Redaction {

  const MASK := "***"

  /** `q` stands at position `i` of `s`. */
  predicate OccursAt(s: string, q: string, i: int) {
    0 <= i && i + |q| <= |s| && s[i..i + |q|] == q
  }

  /** Python's `q in s`. */
  predicate Contains(s: string, q: string) {
    exists i | 0 <= i <= |s| :: OccursAt(s, q, i)
  }

  /** Python's `s.replace("", "***")`: a mask before every character and at the end. */
  function Weave(s: string): string {
    MASK + (if s == "" then "" else [s[0]] + Weave(s[1..]))
  }

  /** Python's `s.replace(q, "***")`: leftmost occurrences, never overlapping. */
  function Replace(s: string, q: string): string
    decreases |s|
  {
    if q == "" then Weave(s)
    else if |s| < |q| then s
    else if s[..|q|] == q then MASK + Replace(s[|q|..], q)
    else [s[0]] + Replace(s[1..], q)
  }

  /** All redactions applied in list order, with no containment test. */
  function RedactAll(message: string, redactions: seq<string>): string
    decreases |redactions|
  {
    if redactions == [] then message
    else RedactAll(Replace(message, redactions[0]), redactions[1..])
  }

  /** A secret that no mask can touch: it is not empty, neither end is a star,
      and it does not hold three stars in a row. */
  predicate Safe(r: string) {
    r != "" && r[0] != '*' && r[|r| - 1] != '*' && !Contains(r, MASK)
  }

  // ---------- Replacing ----------

  lemma OccursLater(s: string, k: nat, q: string, i: int)
    requires k <= |s| && OccursAt(s[k..], q, i)
    ensures OccursAt(s, q, k + i)
  {
    assert s[k + i..k + i + |q|] == s[k..][i..i + |q|];
  }

  lemma ContainsTail(s: string, k: nat, q: string)
    requires k <= |s| && Contains(s[k..], q)
    ensures Contains(s, q)
  {
    var i :| 0 <= i <= |s[k..]| && OccursAt(s[k..], q, i);
    OccursLater(s, k, q, i);
  }

  /** Text without the secret is left as it is, so the source's guard changes nothing. */
  lemma {:induction false} ReplaceAbsent(s: string, q: string)
    requires !Contains(s, q)
    ensures Replace(s, q) == s
    decreases |s|
  {
    assert !OccursAt(s, q, 0);
    if |s| >= |q| && q != "" {
      if Contains(s[1..], q) { ContainsTail(s, 1, q); }
      ReplaceAbsent(s[1..], q);
    }
  }

  /** What stands in the second part of a text stands there by itself. */
  lemma OccursInRest(a: string, s: string, q: string, i: int)
    requires OccursAt(a + s, q, i) && |a| <= i
    ensures OccursAt(s, q, i - |a|)
  {
    assert s[i - |a|..i - |a| + |q|] == (a + s)[i..i + |q|];
  }

  /** A safe secret never starts inside a mask. */
  lemma AfterMask(rest: string, r: string, i: int)
    requires Safe(r) && OccursAt(MASK + rest, r, i)
    ensures i >= 3 && OccursAt(rest, r, i - 3)
  {
    assert (MASK + rest)[i] == (MASK + rest)[i..i + |r|][0] == r[0];
    OccursInRest(MASK, rest, r, i);
  }

  /** A stretch that cannot overlap a mask does not start where a mask starts. */
  lemma NotMasked(t: string, rest: string)
    requires t != "" && t[|t| - 1] != '*' && !Contains(t, MASK)
    ensures !(t <= MASK + rest)
  {
    var masked := MASK + rest;
    if |t| < 3 {
      assert masked[|t| - 1] == '*';
    } else {
      var head := masked[..3];
      assert head == MASK;
      assert !OccursAt(t, MASK, 0);
      assert t[..3] != head;
    }
  }

  lemma {:induction false} PrefixIsCopied(s: string, q: string, t: string)
    requires t != "" && t[|t| - 1] != '*' && !Contains(t, MASK)
    requires t <= Replace(s, q)
    ensures t <= s
    decreases |s|
  {
    if q == "" {
      NotMasked(t, Weave(s)[3..]);
      assert false;
    } else if |s| < |q| {
    } else if s[..|q|] == q {
      NotMasked(t, Replace(s[|q|..], q));
      assert false;
    } else if |t| > 1 {
      if Contains(t[1..], MASK) { ContainsTail(t, 1, MASK); }
      assert t[1..] <= Replace(s, q)[1..];
      PrefixIsCopied(s[1..], q, t[1..]);
    }
  }

  lemma {:induction false} WeaveCopies(s: string, r: string, i: int) returns (j: int)
    requires Safe(r) && OccursAt(Weave(s), r, i)
    ensures OccursAt(s, r, j)
  {
    AfterMask(Weave(s)[3..], r, i);
    var rest := Weave(s[1..]);
    if i == 3 {
      if |r| > 1 { AfterFirst(r, s[0], rest); }
      j := 0;
    } else {
      OccursInRest([s[0]], rest, r, i - 3);
      j := WeaveCopies(s[1..], r, i - 4);
      OccursLater(s, 1, r, j);
      j := j + 1;
    }
  }

  lemma AfterFirst(r: string, c: char, rest: string)
    requires |r| > 1 && Safe(r) && MASK <= rest
    ensures !OccursAt([c] + rest, r, 0)
  {
    var tail := r[1..];
    if Contains(tail, MASK) { ContainsTail(r, 1, MASK); }
    NotMasked(tail, rest[3..]);
    assert rest == MASK + rest[3..];
    if |tail| <= |rest| {
      assert tail != rest[..|tail|];
      assert ([c] + rest)[..|r|][1..] == rest[..|tail|];
    }
  }

  lemma MaskStep(s: string, q: string, r: string, i: int)
    requires Safe(r) && q != "" && q <= s && OccursAt(Replace(s, q), r, i)
    ensures i >= 3 && OccursAt(Replace(s[|q|..], q), r, i - 3)
  {
    AfterMask(Replace(s[|q|..], q), r, i);
  }

  lemma CopyStep(s: string, q: string, r: string, i: int)
    requires q != "" && |q| <= |s| && !(q <= s) && i > 0 && OccursAt(Replace(s, q), r, i)
    ensures OccursAt(Replace(s[1..], q), r, i - 1)
  {
    OccursInRest([s[0]], Replace(s[1..], q), r, i);
  }

  /** No replacement re-creates a safe secret: what is found afterwards was there before. */
  lemma {:induction false} ReplaceCopies(s: string, q: string, r: string, i: int) returns (j: int)
    requires Safe(r) && OccursAt(Replace(s, q), r, i)
    ensures OccursAt(s, r, j)
    decreases |s|
  {
    if q == "" {
      j := WeaveCopies(s, r, i);
    } else if |s| < |q| {
      j := i;
    } else if q <= s {
      MaskStep(s, q, r, i);
      j := ReplaceCopies(s[|q|..], q, r, i - 3);
      OccursLater(s, |q|, r, j);
      j := j + |q|;
    } else if i == 0 {
      PrefixIsCopied(s, q, r);
      j := 0;
    } else {
      CopyStep(s, q, r, i);
      j := ReplaceCopies(s[1..], q, r, i - 1);
      OccursLater(s, 1, r, j);
      j := j + 1;
    }
  }

  /** A safe secret is gone after its own replacement. */
  lemma {:induction false} ReplaceRemoves(s: string, r: string, i: int)
    requires Safe(r)
    ensures !OccursAt(Replace(s, r), r, i)
    decreases |s|
  {
    var found := OccursAt(Replace(s, r), r, i);
    if |s| < |r| {
    } else if r <= s {
      ReplaceRemoves(s[|r|..], r, i - 3);
      if found { MaskStep(s, r, r, i); assert false; }
    } else if i == 0 {
      if found { PrefixIsCopied(s, r, r); assert false; }
    } else {
      ReplaceRemoves(s[1..], r, i - 1);
      if found { CopyStep(s, r, r, i); assert false; }
    }
  }

  lemma {:induction false} AbsentStaysAbsent(message: string, redactions: seq<string>, r: string)
    requires Safe(r) && !Contains(message, r)
    ensures !Contains(RedactAll(message, redactions), r)
    decreases |redactions|
  {
    if redactions != [] {
      var next := Replace(message, redactions[0]);
      if Contains(next, r) {
        var i :| 0 <= i <= |next| && OccursAt(next, r, i);
        var j := ReplaceCopies(message, redactions[0], r, i);
        assert Contains(message, r);
      }
      AbsentStaysAbsent(next, redactions[1..], r);
    }
  }

  // ---------- What replacing keeps ----------

  /** Python's `sep.join(parts)`. */
  function Join(parts: seq<string>, sep: string): string {
    if parts == [] then "" else if |parts| == 1 then parts[0] else parts[0] + (sep + Join(parts[1..], sep))
  }

  /** The leftmost occurrence. */
  ghost predicate FirstAt(s: string, q: string, k: int) {
    OccursAt(s, q, k) && forall i | 0 <= i < k :: !OccursAt(s, q, i)
  }

  /** The parts between the occurrences of `q` that come one after the other, each the leftmost in what
      the one before it has left; no occurrence is left in the last part. */
  ghost predicate IsCut(parts: seq<string>, q: string) {
    && parts != []
    && (if |parts| == 1 then !Contains(parts[0], q)
        else FirstAt(Join(parts, q), q, |parts[0]|) && IsCut(parts[1..], q))
  }

  /** A mask before every character and at the end, and the characters in their order. */
  ghost predicate IsWoven(s: string, r: string) {
    && |r| == 4 * |s| + 3 && r[..3] == MASK
    && forall i | 0 <= i < |s| :: s[i] == r[4 * i + 3] && r[4 * i + 4..4 * i + 7] == MASK
  }

  /** `r` is `s` with a mask in place of each occurrence of `q`, and with everything else as it was. */
  ghost predicate IsMasked(s: string, q: string, r: string) {
    if q == "" then IsWoven(s, r)
    else exists parts :: IsCut(parts, q) && Join(parts, q) == s && Join(parts, MASK) == r
  }

  /** `r` is `s` with each of the redactions masked in turn. */
  ghost predicate IsRedacted(s: string, redactions: seq<string>, r: string)
    decreases |redactions|
  {
    if redactions == [] then r == s
    else exists next :: IsMasked(s, redactions[0], next) && IsRedacted(next, redactions[1..], r)
  }

  /** The leftmost occurrence is replaced; the text before it stays, and the text after it is treated in
      the same way. */
  lemma {:induction false} FirstIsReplaced(u: string, q: string, v: string)
    requires q != "" && FirstAt(u + (q + v), q, |u|)
    ensures Replace(u + (q + v), q) == u + (MASK + Replace(v, q))
    decreases |u|
  {
    var s := u + (q + v);
    if u == "" {
      assert s == q + v && s[..|q|] == q && s[|q|..] == v;
    } else {
      assert !OccursAt(s, q, 0);
      assert s[1..] == u[1..] + (q + v);
      forall i | 0 <= i < |u| - 1 ensures !OccursAt(s[1..], q, i) {
        if OccursAt(s[1..], q, i) { OccursLater(s, 1, q, i); }
      }
      assert OccursAt(s[1..], q, |u| - 1);
      FirstIsReplaced(u[1..], q, v);
      assert [u[0]] + (u[1..] + (MASK + Replace(v, q))) == u + (MASK + Replace(v, q));
    }
  }

  lemma FirstOccurrence(s: string, q: string) returns (k: nat)
    requires Contains(s, q)
    ensures FirstAt(s, q, k)
  {
    k := 0;
    while !OccursAt(s, q, k)
      invariant k <= |s| && forall i | 0 <= i < k :: !OccursAt(s, q, i)
      decreases |s| - k
    {
      var i :| 0 <= i <= |s| && OccursAt(s, q, i);
      k := k + 1;
    }
  }

  /** Every text has such parts. */
  lemma {:induction false} CutOf(s: string, q: string) returns (parts: seq<string>)
    requires q != ""
    ensures IsCut(parts, q) && Join(parts, q) == s
    decreases |s|
  {
    if Contains(s, q) {
      var k := FirstOccurrence(s, q);
      var rest := CutOf(s[k + |q|..], q);
      parts := [s[..k]] + rest;
      assert parts[1..] == rest;
      assert s == s[..k] + (q + s[k + |q|..]);
    } else {
      parts := [s];
    }
  }

  lemma {:induction false} CutIsReplaced(parts: seq<string>, q: string)
    requires q != "" && IsCut(parts, q)
    ensures Replace(Join(parts, q), q) == Join(parts, MASK)
    decreases |parts|
  {
    if |parts| == 1 {
      ReplaceAbsent(parts[0], q);
    } else {
      FirstIsReplaced(parts[0], q, Join(parts[1..], q));
      CutIsReplaced(parts[1..], q);
    }
  }

  lemma {:induction false} WeaveIsWoven(s: string)
    ensures IsWoven(s, Weave(s))
  {
    if s != "" {
      var rest := Weave(s[1..]);
      var r := Weave(s);
      WeaveIsWoven(s[1..]);
      assert r == MASK + [s[0]] + rest;
      forall i | 0 <= i < |s| ensures s[i] == r[4 * i + 3] && r[4 * i + 4..4 * i + 7] == MASK {
        if i == 0 {
          assert r[4..7] == rest[..3];
        } else {
          assert s[1..][i - 1] == rest[4 * (i - 1) + 3];
          assert r[4 * i + 4..4 * i + 7] == rest[4 * (i - 1) + 4..4 * (i - 1) + 7];
        }
      }
    }
  }

  lemma WovenIsUnique(s: string, r: string, t: string)
    requires IsWoven(s, r) && IsWoven(s, t)
    ensures r == t
  {
    forall j | 0 <= j < |r| ensures r[j] == t[j] {
      if j < 3 {
        assert r[j] == r[..3][j] && t[j] == t[..3][j];
      } else {
        var i, k := (j - 3) / 4, (j - 3) % 4;
        assert s[i] == r[4 * i + 3] == t[4 * i + 3];
        if k > 0 {
          assert r[j] == r[4 * i + 4..4 * i + 7][k - 1] && t[j] == t[4 * i + 4..4 * i + 7][k - 1];
        }
      }
    }
  }

  /** Replacing is masking, and nothing else. */
  lemma ReplaceIsMasking(s: string, q: string, r: string)
    ensures IsMasked(s, q, r) <==> r == Replace(s, q)
  {
    if q == "" {
      WeaveIsWoven(s);
      if IsWoven(s, r) { WovenIsUnique(s, r, Weave(s)); }
    } else {
      var parts := CutOf(s, q);
      CutIsReplaced(parts, q);
      if IsMasked(s, q, r) {
        var others :| IsCut(others, q) && Join(others, q) == s && Join(others, MASK) == r;
        CutIsReplaced(others, q);
      }
    }
  }

  /** The result of all redactions holds every other character of the message, in its place. */
  lemma {:induction false} RedactionIsMasking(s: string, redactions: seq<string>, r: string)
    ensures IsRedacted(s, redactions, r) <==> r == RedactAll(s, redactions)
    decreases |redactions|
  {
    if redactions != [] {
      var next := Replace(s, redactions[0]);
      ReplaceIsMasking(s, redactions[0], next);
      RedactionIsMasking(next, redactions[1..], r);
      if IsRedacted(s, redactions, r) {
        var other :| IsMasked(s, redactions[0], other) && IsRedacted(other, redactions[1..], r);
        ReplaceIsMasking(s, redactions[0], other);
      }
    }
  }

  // ---------- Completeness, and exactly when it holds ----------

  /** A safe secret survives in no message, wherever it stands in the list
      and whatever the other redactions are. */
  lemma {:induction false} SafeNeverSurvives(message: string, redactions: seq<string>, r: string)
    requires Safe(r) && r in redactions
    ensures !Contains(RedactAll(message, redactions), r)
    decreases |redactions|
  {
    var next := Replace(message, redactions[0]);
    if redactions[0] == r {
      forall i ensures !OccursAt(next, r, i) { ReplaceRemoves(message, r, i); }
      AbsentStaysAbsent(next, redactions[1..], r);
    } else {
      SafeNeverSurvives(next, redactions[1..], r);
    }
  }

  /** With only non-empty, star-free redactions the result holds none of them. */
  lemma StarFreeRedactionIsComplete(message: string, redactions: seq<string>)
    requires forall r :: r in redactions ==> r != "" && '*' !in r
    ensures forall r :: r in redactions ==> !Contains(RedactAll(message, redactions), r)
  {
    forall r | r in redactions ensures !Contains(RedactAll(message, redactions), r) {
      forall i ensures !OccursAt(r, MASK, i) {
        if 0 <= i && i + 3 <= |r| { assert r[i] in r && r[i..i + 3][0] == r[i]; }
      }
      SafeNeverSurvives(message, redactions, r);
    }
  }

  /** n letters `a` and then one `b`. */
  function Marker(n: nat): (q: string)
    ensures |q| == n + 1 && q[n] == 'b' && forall i | 0 <= i < n :: q[i] == 'a'
  {
    seq(n, i => 'a') + "b"
  }

  lemma MarkerIsNotFirst(u: string, n: nat, v: string)
    requires 0 < |u| < n
    ensures (u + (Marker(n) + v))[..n + 1] != Marker(n)
  {
    var q := Marker(n);
    var s := u + (q + v);
    assert s[n] == (q + v)[n - |u|] == q[n - |u|] == 'a';
    assert s[..n + 1][n] != q[n];
  }

  /** A marker longer than what surrounds it is found once, and replaced there. */
  lemma {:induction false} MarkerReplaced(u: string, n: nat, v: string)
    requires |u| < n && |v| < n
    ensures Replace(u + (Marker(n) + v), Marker(n)) == u + (MASK + v)
    decreases |u|
  {
    var q := Marker(n);
    var s := u + (q + v);
    if u == "" {
      assert s == q + v && s[..|q|] == q && s[|q|..] == v;
      assert Replace(v, q) == v;
    } else {
      MarkerIsNotFirst(u, n, v);
      assert s[1..] == u[1..] + (q + v);
      MarkerReplaced(u[1..], n, v);
      assert [u[0]] + (u[1..] + (MASK + v)) == u + (MASK + v);
    }
  }

  /** With the marker in its gap the secret stands nowhere: its star would have to be in the marker. */
  lemma HiddenByMarker(u: string, t: string, v: string, p: int)
    requires t != "" && t[0] == '*'
    ensures var r := u + t + v; !OccursAt(u + (Marker(|r| + 1) + v), r, p)
  {
    var r := u + t + v;
    var q := Marker(|r| + 1);
    var s := u + (q + v);
    if 0 <= p && p + |r| <= |s| {
      assert p < |q|;
      assert s[p + |u|] == q[p] != '*';
      assert s[p..p + |r|][|u|] == s[p + |u|];
      assert r == u + (t + v) && r[|u|] == t[0];
    }
  }

  lemma RedactTwo(s: string, r: string, q: string)
    ensures RedactAll(s, [r, q]) == Replace(Replace(s, r), q)
  {
    var rs := [r, q];
    assert rs[1..][1..] == [];
    assert RedactAll(s, rs) == RedactAll(Replace(s, r), rs[1..]) == RedactAll(Replace(Replace(s, r), q), rs[1..][1..]);
  }

  /** A secret with a star next to a gap is rebuilt by masking a marker that stood in the gap. */
  lemma RebuiltByMarker(u: string, t: string, v: string)
    requires t != "" && t[0] == '*'
    requires Contains(u + MASK + v, u + t + v)
    ensures exists redactions: seq<string>, message: string ::
              u + t + v in redactions && Contains(RedactAll(message, redactions), u + t + v)
  {
    var r := u + t + v;
    var n := |r| + 1;
    var q := Marker(n);
    var s := u + (q + v);
    assert u + (MASK + v) == u + MASK + v;
    forall p ensures !OccursAt(s, r, p) { HiddenByMarker(u, t, v, p); }
    ReplaceAbsent(s, r);
    MarkerReplaced(u, n, v);
    var rs := [r, q];
    RedactTwo(s, r, q);
    assert r in rs && Contains(RedactAll(s, rs), r);
  }

  lemma UnsafeCanSurvive(r: string)
    requires !Safe(r)
    ensures exists redactions: seq<string>, message: string ::
              r in redactions && Contains(RedactAll(message, redactions), r)
  {
    if r == "" {
      var rs := [r];
      assert OccursAt(RedactAll("", rs), r, 0);
      assert r in rs;
    } else if r[0] == '*' {
      var v := r[1..];
      assert r == "" + "*" + v;
      assert OccursAt("" + MASK + v, r, 2) by { assert ("" + MASK + v)[2..2 + |r|] == r; }
      RebuiltByMarker("", "*", v);
    } else if r[|r| - 1] == '*' {
      var u := r[..|r| - 1];
      assert r == u + "*" + "";
      assert OccursAt(u + MASK + "", r, 0) by { assert (u + MASK + "")[0..|r|] == r; }
      RebuiltByMarker(u, "*", "");
    } else {
      var i :| 0 <= i <= |r| && OccursAt(r, MASK, i);
      var u, v := r[..i], r[i + 3..];
      assert r == u + MASK + v;
      assert OccursAt(u + MASK + v, r, 0);
      RebuiltByMarker(u, MASK, v);
    }
  }

  /** Redaction of `r` is complete for every list and message exactly when `r` is safe. */
  lemma SafeIsExact(r: string)
    ensures Safe(r) <==>
            forall redactions: seq<string>, message: string ::
              r in redactions ==> !Contains(RedactAll(message, redactions), r)
  {
    if Safe(r) {
      forall redactions: seq<string>, message: string | r in redactions
        ensures !Contains(RedactAll(message, redactions), r)
      {
        SafeNeverSurvives(message, redactions, r);
      }
    } else {
      UnsafeCanSurvive(r);
    }
  }

  // ---------- The redactor ----------

  /** A logged value: only strings are rewritten. */
  datatype Value = Str(text: string) | Other(id: int)

  /** `record.args`: a mapping in its own order, a tuple, nothing, or some other type. */
  datatype Args =
    | Mapping(items: seq<(string, Value)>)
    | Positional(values: seq<Value>)
    | NoArgs
    | Unsupported

  datatype Outcome = Returned | RaisedNotImplemented

  function RedactValue(v: Value, redactions: seq<string>): Value {
    match v
    case Str(text) => Str(RedactAll(text, redactions))
    case Other(_) => v
  }

  /** `after` is `before` with every string redacted, and keys, order and other values kept. */
  ghost predicate ArgsRedacted(before: Args, after: Args, redactions: seq<string>) {
    match before
    case Mapping(items) =>
      && after.Mapping? && |after.items| == |items|
      && forall i | 0 <= i < |items| ::
           after.items[i] == (items[i].0, RedactValue(items[i].1, redactions))
    case Positional(values) =>
      && after.Positional? && |after.values| == |values|
      && forall i | 0 <= i < |values| :: after.values[i] == RedactValue(values[i], redactions)
    case _ => after == before
  }

  /** No string of the arguments holds `r`; the keys of a mapping are not rewritten. */
  ghost predicate ArgsFree(args: Args, r: string) {
    match args
    case Mapping(items) => forall i | 0 <= i < |items| :: ValueFree(items[i].1, r)
    case Positional(values) => forall i | 0 <= i < |values| :: ValueFree(values[i], r)
    case _ => true
  }

  predicate ValueFree(v: Value, r: string) {
    v.Str? ==> !Contains(v.text, r)
  }

  /** A redacted value is of the same kind: a string is masked, and anything else is kept. */
  lemma ValuesAreMasked(v: Value, redactions: seq<string>)
    ensures var w := RedactValue(v, redactions);
            if v.Str? then w.Str? && IsRedacted(v.text, redactions, w.text) else w == v
  {
    if v.Str? { RedactionIsMasking(v.text, redactions, RedactAll(v.text, redactions)); }
  }

  /** One more redaction at the end of the list is one more replacement. */
  lemma {:induction false} RedactOneMore(message: string, redactions: seq<string>, r: string)
    ensures RedactAll(message, redactions + [r]) == Replace(RedactAll(message, redactions), r)
    decreases |redactions|
  {
    var longer := redactions + [r];
    if redactions == [] {
      assert longer[1..] == [];
    } else {
      assert longer[1..] == redactions[1..] + [r];
      RedactOneMore(Replace(message, redactions[0]), redactions[1..], r);
    }
  }

  lemma ValueOneMore(v: Value, redactions: seq<string>, r: string)
    ensures RedactValue(v, redactions + [r]) == RedactValue(RedactValue(v, redactions), [r])
  {
    if v.Str? {
      RedactOneMore(v.text, redactions, r);
      var t := RedactAll(v.text, redactions);
      assert [r][0] == r && [r][1..] == [];
      assert RedactAll(t, [r]) == RedactAll(Replace(t, r), [r][1..]);
    }
  }

  lemma ArgsOneMore(a: Args, b: Args, c: Args, redactions: seq<string>, r: string)
    requires ArgsRedacted(a, b, redactions) && ArgsRedacted(b, c, [r])
    ensures ArgsRedacted(a, c, redactions + [r])
  {
    match a {
      case Mapping(items) =>
        forall i | 0 <= i < |items|
          ensures c.items[i] == (items[i].0, RedactValue(items[i].1, redactions + [r]))
        {
          ValueOneMore(items[i].1, redactions, r);
        }
      case Positional(values) =>
        forall i | 0 <= i < |values|
          ensures c.values[i] == RedactValue(values[i], redactions + [r])
        {
          ValueOneMore(values[i], redactions, r);
        }
      case _ =>
    }
  }

  lemma RedactedArgsAreFree(before: Args, after: Args, redactions: seq<string>, r: string)
    requires ArgsRedacted(before, after, redactions) && Safe(r) && r in redactions
    ensures ArgsFree(after, r)
  {
    match before {
      case Mapping(items) =>
        forall i | 0 <= i < |items| ensures ValueFree(after.items[i].1, r) {
          if items[i].1.Str? { SafeNeverSurvives(items[i].1.text, redactions, r); }
        }
      case Positional(values) =>
        forall i | 0 <= i < |values| ensures ValueFree(after.values[i], r) {
          if values[i].Str? { SafeNeverSurvives(values[i].text, redactions, r); }
        }
      case _ =>
    }
  }

  class LogRecord {
    var msg: Value
    var message: Value  // `Other` when the attribute is missing
    var args: Args

    constructor (msg: Value, message: Value, args: Args)
      ensures this.msg == msg && this.message == message && this.args == args
    {
      this.msg, this.message, this.args := msg, message, args;
    }
  }

  class LogRedactor {
    var redactions: seq<string>

    constructor (redactions: seq<string>)
      ensures this.redactions == redactions
    {
      this.redactions := redactions;
    }

    method ProcessLogMessage(original: string) returns (message: string)
      ensures message == RedactAll(original, redactions)
      ensures IsRedacted(original, redactions, message)
      ensures forall r :: r in redactions && Safe(r) ==> !Contains(message, r)
    {
      message := original;
      for k := 0 to |redactions|
        invariant message == RedactAll(original, redactions[..k])
      {
        message := Substitute(message, redactions[k]);
        RedactOneMore(original, redactions[..k], redactions[k]);
        assert redactions[..k] + [redactions[k]] == redactions[..k + 1];
      }
      assert redactions[..|redactions|] == redactions;
      RedactionIsMasking(original, redactions, message);
      forall r | r in redactions && Safe(r) ensures !Contains(message, r) {
        SafeNeverSurvives(original, redactions, r);
      }
    }

    /** The guarded replacement that every rewritten string goes through. */
    method Substitute(text: string, redaction: string) returns (result: string)
      ensures result == Replace(text, redaction) == RedactAll(text, [redaction])
    {
      result := text;
      if Contains(text, redaction) {
        result := Replace(text, redaction);
      } else {
        ReplaceAbsent(text, redaction);
      }
      assert [redaction][1..] == [];
    }

    method SubstituteValue(v: Value, redaction: string) returns (w: Value)
      ensures w == RedactValue(v, [redaction])
    {
      w := v;
      if v.Str? {
        var text := Substitute(v.text, redaction);
        w := Str(text);
      }
    }

    method SubstituteArgs(args: Args, redaction: string) returns (result: Args)
      requires !args.Unsupported?
      ensures ArgsRedacted(args, result, [redaction])
    {
      result := args;
      match args {
        case Mapping(items) =>
          var done := items;
          for i := 0 to |items|
            invariant |done| == |items| && done[i..] == items[i..]
            invariant forall j | 0 <= j < i :: done[j] == (items[j].0, RedactValue(items[j].1, [redaction]))
          {
            var w := SubstituteValue(items[i].1, redaction);
            assert done[i] == done[i..][0] == items[i];
            done := done[i := (done[i].0, w)];
          }
          result := Mapping(done);
        case Positional(values) =>
          var done := values;
          for i := 0 to |values|
            invariant |done| == |values| && done[i..] == values[i..]
            invariant forall j | 0 <= j < i :: done[j] == RedactValue(values[j], [redaction])
          {
            var w := SubstituteValue(values[i], redaction);
            done := done[i := w];
          }
          result := Positional(done);
        case _ =>
      }
    }

    /** Rewrites the record in place. Arguments of an unknown type raise in the first round,
        when only the first redaction has been applied to the two messages. */
    method ProcessLogRecord(record: LogRecord) returns (outcome: Outcome)
      modifies record
      ensures outcome.RaisedNotImplemented? <==> old(record.args).Unsupported? && redactions != []
      ensures outcome.Returned? ==>
                && record.msg == RedactValue(old(record.msg), redactions)
                && record.message == RedactValue(old(record.message), redactions)
                && ArgsRedacted(old(record.args), record.args, redactions)
      ensures outcome.Returned? && old(record.msg).Str? ==>
                record.msg.Str? && IsRedacted(old(record.msg).text, redactions, record.msg.text)
      ensures outcome.Returned? && old(record.message).Str? ==>
                record.message.Str? && IsRedacted(old(record.message).text, redactions, record.message.text)
      ensures outcome.Returned? ==> forall r :: r in redactions && Safe(r) ==>
                ValueFree(record.msg, r) && ValueFree(record.message, r) && ArgsFree(record.args, r)
      ensures outcome.RaisedNotImplemented? ==>
                && record.msg == RedactValue(old(record.msg), redactions[..1])
                && record.message == RedactValue(old(record.message), redactions[..1])
                && record.args == old(record.args)
    {
      for k := 0 to |redactions|
        invariant record.msg == RedactValue(old(record.msg), redactions[..k])
        invariant record.message == RedactValue(old(record.message), redactions[..k])
        invariant ArgsRedacted(old(record.args), record.args, redactions[..k])
        invariant k > 0 ==> !old(record.args).Unsupported?
      {
        var redaction := redactions[k];
        ghost var before := record.args;
        assert redactions[..k] + [redaction] == redactions[..k + 1];
        ValueOneMore(old(record.msg), redactions[..k], redaction);
        ValueOneMore(old(record.message), redactions[..k], redaction);
        var m := SubstituteValue(record.msg, redaction);
        record.msg := m;
        m := SubstituteValue(record.message, redaction);
        record.message := m;
        if record.args.Unsupported? {
          return RaisedNotImplemented;
        }
        var a := SubstituteArgs(record.args, redaction);
        record.args := a;
        ArgsOneMore(old(record.args), before, a, redactions[..k], redaction);
      }
      assert redactions[..|redactions|] == redactions;
      forall r | r in redactions && Safe(r)
        ensures ValueFree(record.msg, r) && ValueFree(record.message, r) && ArgsFree(record.args, r)
      {
        if old(record.msg).Str? { SafeNeverSurvives(old(record.msg).text, redactions, r); }
        if old(record.message).Str? { SafeNeverSurvives(old(record.message).text, redactions, r); }
        RedactedArgsAreFree(old(record.args), record.args, redactions, r);
      }
      ValuesAreMasked(old(record.msg), redactions);
      ValuesAreMasked(old(record.message), redactions);
      outcome := Returned;
    }
  }
}
