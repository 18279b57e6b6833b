/**
 Revisions as entity tags: printed for ETag, read strictly from If-Match, and matched
 weakly against If-None-Match (sections 8.8.3 and 13.1.2 of RFC 9110).
 */
module EntityTags {
  import opened Decimal
  import opened Text

  const MAX_INT64 := 0x7FFF_FFFF_FFFF_FFFF

  function Tag(revision: int): string {
    "\"" + FormatInt(revision) + "\""
  }

  /** A quoted numeral without a sign or a leading zero. */
  predicate StrongRevisionTag(s: string) {
    && |s| >= 3
    && s[0] == '"' && s[|s| - 1] == '"'
    && AllDigits(s[1..|s| - 1])
    && s[1] != '0'
  }

  datatype Read = Required | Invalid | Revision(value: nat)

  function IfMatchRevision(header: string): Read {
    var value := Trim(header);
    if value == "" then Required
    else if !StrongRevisionTag(value) then Invalid
    else
      var n := Decimal.Value(value[1..|value| - 1]);
      if n > MAX_INT64 then Invalid else Revision(n)
  }

  predicate CandidateMatches(candidate: string, tag: string) {
    var c := Trim(candidate);
    c == "*" || (if "W/" <= c then c[2..] else c) == tag
  }

  predicate ValueMatches(value: string, tag: string) {
    exists i :: 0 <= i < |Split(value, ',')| && CandidateMatches(Split(value, ',')[i], tag)
  }

  method NoneMatch(values: seq<string>, tag: string) returns (matched: bool)
    ensures matched <==> exists i :: 0 <= i < |values| && ValueMatches(values[i], tag)
  {
    for i := 0 to |values|
      invariant forall k :: 0 <= k < i ==> !ValueMatches(values[k], tag)
    {
      var candidates := Split(values[i], ',');
      for j := 0 to |candidates|
        invariant forall k :: 0 <= k < j ==> !CandidateMatches(candidates[k], tag)
      {
        if CandidateMatches(candidates[j], tag) {
          assert ValueMatches(values[i], tag);
          return true;
        }
      }
    }
    return false;
  }

  // ---------------------------------------------------------------------
  // Round trips
  // ---------------------------------------------------------------------

  lemma {:induction false} TagShape(v: nat)
    requires v >= 1
    ensures var t := Tag(v);
            && StrongRevisionTag(t) && t[1..|t| - 1] == Digits(v) && Decimal.Value(t[1..|t| - 1]) == v
            && Trimmed(t) && ',' !in t && t != "*" && !("W/" <= t)
  {
    var t, d := Tag(v), Digits(v);
    assert t[1..|t| - 1] == d;
    ValueOfDigits(v);
    assert t[1] == d[0];
    forall c | c in t
      ensures c == '"' || IsDigit(c)
    {
      var i :| 0 <= i < |t| && t[i] == c;
      assert 1 <= i < |t| - 1 ==> t[i] == d[i - 1];
    }
  }

  lemma {:induction false} Quoted(value: string)
    requires |value| >= 2 && value[0] == '"' && value[|value| - 1] == '"'
    ensures value == "\"" + value[1..|value| - 1] + "\""
  {
  }

  lemma {:induction false} StrongIsTag(value: string)
    requires StrongRevisionTag(value)
    ensures var n := Decimal.Value(value[1..|value| - 1]); n >= 1 && value == Tag(n)
  {
    var d := value[1..|value| - 1];
    assert d[0] == value[1];
    DigitsOfValue(d);
    Quoted(value);
  }

  /** Exactly the tags of the revisions 1 to 2^63-1, however padded, are read as revisions. */
  lemma {:induction false} ReadsExactlyTags(header: string, v: nat)
    ensures IfMatchRevision(header) == Revision(v) <==> 1 <= v <= 0x7FFF_FFFF_FFFF_FFFF && Trim(header) == Tag(v)
  {
    if StrongRevisionTag(Trim(header)) {
      StrongIsTag(Trim(header));
    }
    if 1 <= v {
      TagShape(v);
    }
  }

  /** What was sent as an ETag comes back as the same revision. */
  lemma {:induction false} TagRoundTrip(left: string, v: nat, right: string)
    requires 1 <= v <= 0x7FFF_FFFF_FFFF_FFFF && Blank(left) && Blank(right)
    ensures IfMatchRevision(left + Tag(v) + right) == Revision(v)
  {
    TagShape(v);
    TrimPadding(left, Tag(v), right);
    ReadsExactlyTags(left + Tag(v) + right, v);
  }

  /** A header that is missing or blank is told one is required. */
  lemma {:induction false} RequiredExactly(header: string)
    ensures IfMatchRevision(header) == Required <==> Blank(header)
  {
    TrimsToNothing(header);
  }

  /** A numeral no revision can have is refused, never wrapped around. */
  lemma {:induction false} LargeNumeralRefused(v: nat)
    requires v > 0x7FFF_FFFF_FFFF_FFFF
    ensures IfMatchRevision(Tag(v)) == Invalid
  {
    TagShape(v);
    TrimPadding("", Tag(v), "");
    assert "" + Tag(v) + "" == Tag(v);
  }

  // ---------------------------------------------------------------------
  // If-None-Match
  // ---------------------------------------------------------------------

  /** One listed tag, strong or weak, with the white space around it. */
  datatype Listed = Listed(left: string, weak: bool, revision: nat, right: string)

  predicate WellFormed(l: Listed) {
    Blank(l.left) && Blank(l.right) && ',' !in l.left && ',' !in l.right && l.revision >= 1
  }

  function Core(l: Listed): string {
    if l.weak then "W/" + Tag(l.revision) else Tag(l.revision)
  }

  function Rendered(l: Listed): string {
    l.left + Core(l) + l.right
  }

  function RenderedAll(ls: seq<Listed>): (r: seq<string>)
    ensures |r| == |ls| && forall i :: 0 <= i < |ls| ==> r[i] == Rendered(ls[i])
  {
    seq(|ls|, i requires 0 <= i < |ls| => Rendered(ls[i]))
  }

  lemma {:induction false} CoreShape(l: Listed)
    requires WellFormed(l)
    ensures Trimmed(Core(l)) && ',' !in Core(l) && Core(l) != "*"
    ensures (if "W/" <= Core(l) then Core(l)[2..] else Core(l)) == Tag(l.revision)
  {
    TagShape(l.revision);
    if l.weak {
      assert Core(l)[2..] == Tag(l.revision);
      assert Core(l)[|Core(l)| - 1] == Tag(l.revision)[|Tag(l.revision)| - 1];
    }
  }

  lemma {:induction false} TagsDiffer(a: nat, b: nat)
    requires a >= 1 && b >= 1
    ensures Tag(a) == Tag(b) <==> a == b
  {
    TagShape(a);
    TagShape(b);
  }

  /** A candidate matches a revision exactly when, trimmed, it is the star or the revision's tag, strong or weak. */
  lemma {:induction false} CandidateMatchesExactly(candidate: string, v: nat)
    requires v >= 1
    ensures CandidateMatches(candidate, Tag(v)) <==> Trim(candidate) in {"*", Tag(v), "W/" + Tag(v)}
  {
    TagShape(v);
    var c := Trim(candidate);
    assert "W/" <= c ==> c == "W/" + c[2..];
    assert ("W/" + Tag(v))[2..] == Tag(v);
  }

  lemma {:induction false} RenderedMatches(l: Listed, v: nat)
    requires WellFormed(l) && v >= 1
    ensures CandidateMatches(Rendered(l), Tag(v)) <==> l.revision == v
    ensures ',' !in Rendered(l)
  {
    CoreShape(l);
    TrimPadding(l.left, Core(l), l.right);
    TagsDiffer(l.revision, v);
  }

  /** A comma-separated list of strong or weak revision tags matches exactly the revisions it lists. */
  lemma {:induction false} ListMatches(ls: seq<Listed>, v: nat)
    requires ls != [] && v >= 1 && forall i :: 0 <= i < |ls| ==> WellFormed(ls[i])
    ensures ValueMatches(Join(RenderedAll(ls), ','), Tag(v)) <==> exists i :: 0 <= i < |ls| && ls[i].revision == v
  {
    var parts := RenderedAll(ls);
    forall i | 0 <= i < |ls|
      ensures ',' !in parts[i] && (CandidateMatches(parts[i], Tag(v)) <==> ls[i].revision == v)
    {
      RenderedMatches(ls[i], v);
    }
    SplitJoin(parts, ',');
    if i :| 0 <= i < |ls| && ls[i].revision == v {
      assert CandidateMatches(parts[i], Tag(v));
    }
  }
}
