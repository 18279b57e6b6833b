/**
 What the administrative verdicts leave as evidence: the labels of a comparison, and that the
 recorder accepts exactly these.
 */
module AdminEvidence {
  import opened Text
  import opened AdminVerdict
  import S = ShadowEvidence

  function LegacyLabel(allowed: bool): string {
    if allowed then "allow" else "deny"
  }

  function OutcomeLabel(o: Outcome): string {
    match o
    case ShadowAllow => "allow"
    case ShadowDeny => "deny"
    case ShadowStepUp => "step_up"
    case ShadowApproval => "approval_required"
    case ShadowNotReady => "not_ready"
    case ShadowUnmapped => "unmapped"
    case ShadowUnresolved => "unresolved"
    case ShadowError => "error"
  }

  function AgreementLabel(a: Agreement): string {
    match a
    case Agree => "agree"
    case GrantsBroader => "grants_broader"
    case GrantsNarrower => "grants_narrower"
    case NotEvaluated => "not_evaluated"
  }

  /** A comparison has these labels. */
  predicate Labels(c: Comparison, legacy: string, grants: string, agreement: string) {
    legacy == LegacyLabel(c.legacy) && grants == OutcomeLabel(c.grants) && agreement == AgreementLabel(c.agreement)
  }

  lemma {:induction false} LabelsTellApart(c: Comparison, d: Comparison, legacy: string, grants: string,
                                           agreement: string)
    requires Labels(c, legacy, grants, agreement) && Labels(d, legacy, grants, agreement)
    ensures c.legacy == d.legacy && c.grants == d.grants && c.agreement == d.agreement
  {
  }

  /** One of the labels, by what it stands for. */
  lemma {:induction false} OutcomeOfLabel(grants: string) returns (o: Outcome)
    requires grants in {"allow", "deny", "step_up", "approval_required", "not_ready", "unmapped", "unresolved", "error"}
    ensures OutcomeLabel(o) == grants
  {
    o := if grants == "allow" then ShadowAllow else if grants == "deny" then ShadowDeny
         else if grants == "step_up" then ShadowStepUp else if grants == "approval_required" then ShadowApproval
         else if grants == "not_ready" then ShadowNotReady else if grants == "unmapped" then ShadowUnmapped
         else if grants == "unresolved" then ShadowUnresolved else ShadowError;
  }

  lemma {:induction false} AgreementOfLabel(agreement: string) returns (a: Agreement)
    requires agreement in {"agree", "grants_broader", "grants_narrower", "not_evaluated"}
    ensures AgreementLabel(a) == agreement
  {
    a := if agreement == "agree" then Agree else if agreement == "grants_broader" then GrantsBroader
         else if agreement == "grants_narrower" then GrantsNarrower else NotEvaluated;
  }

  /** The closed sets are exactly the labels of comparisons: the recorder accepts all of these and nothing else. */
  lemma {:induction false} RecordsExactlyComparisons(permission: string, legacy: string, grants: string,
                                                     agreement: string)
    ensures S.Recordable(permission, legacy, grants, agreement) <==>
            && (S.PermissionKey(permission) || permission == "unregistered")
            && exists c :: Labels(c, legacy, grants, agreement)
  {
    if S.Recordable(permission, legacy, grants, agreement) {
      var o := OutcomeOfLabel(grants);
      var a := AgreementOfLabel(agreement);
      assert Labels(Comparison(permission, legacy == "allow", o, a), legacy, grants, agreement);
    }
  }

  /** So every comparison a verdict records counts, whatever it says; the permission is a key, or there is none. */
  lemma {:induction false} VerdictIsEvidence(c: Comparison)
    requires S.PermissionKey(c.permission) || c.permission == "unregistered"
    ensures S.Recordable(c.permission, LegacyLabel(c.legacy), OutcomeLabel(c.grants), AgreementLabel(c.agreement))
  {
    assert Labels(c, LegacyLabel(c.legacy), OutcomeLabel(c.grants), AgreementLabel(c.agreement));
    RecordsExactlyComparisons(c.permission, LegacyLabel(c.legacy), OutcomeLabel(c.grants),
                              AgreementLabel(c.agreement));
  }

  // ---------------------------------------------------------------------
  // Permission keys
  // ---------------------------------------------------------------------

  predicate KeyCharacter(c: char) {
    'a' <= c <= 'z' || '0' <= c <= '9' || c == '-'
  }

  /** A key's character, or a dot that a letter follows. */
  predicate FitsAt(s: string, i: nat)
    requires i < |s|
  {
    if s[i] == '.' then i + 1 < |s| && 'a' <= s[i + 1] <= 'z' else KeyCharacter(s[i])
  }

  predicate Dotted(s: string) {
    forall i :: 0 <= i < |s| ==> FitsAt(s, i)
  }

  /** The first part is the rest of a segment, and all others are segments. */
  ghost predicate Tail(parts: seq<string>) {
    && parts != []
    && (forall i :: 0 <= i < |parts[0]| ==> KeyCharacter(parts[0][i]))
    && forall i :: 1 <= i < |parts| ==> S.Segment(parts[i])
  }

  lemma {:induction false} SplitFirst(s: string)
    requires s != ""
    ensures var parts := Split(s, '.');
            if s[0] == '.' then |parts| > 1 && parts[0] == "" && parts[1..] == Split(s[1..], '.')
            else parts[0] != "" && parts[0][0] == s[0] && parts[0][1..] == Split(s[1..], '.')[0]
                 && parts[1..] == Split(s[1..], '.')[1..]
  {
  }

  lemma {:induction false} SegmentIsLetterAndTail(part: string)
    ensures S.Segment(part) <==>
            part != "" && 'a' <= part[0] <= 'z' && forall i :: 0 <= i < |part| ==> KeyCharacter(part[i])
  {
  }

  lemma {:induction false} TailDotted(s: string)
    ensures Tail(Split(s, '.')) <==> Dotted(s)
    ensures |Split(s, '.')| >= 2 <==> '.' in s
  {
    if s != "" {
      var rest, parts := Split(s[1..], '.'), Split(s, '.');
      TailDotted(s[1..]);
      SplitFirst(s);
      assert s == [s[0]] + s[1..];
      DottedStep(s);
      if s[0] == '.' {
        if |s| > 1 { SplitFirst(s[1..]); }
        TailAfterDot(parts, rest);
      } else {
        TailStep(parts, rest);
      }
    }
  }

  lemma {:induction false} DottedStep(s: string)
    requires s != ""
    ensures Dotted(s) <==> Dotted(s[1..]) && FitsAt(s, 0)
  {
    assert forall i :: 0 <= i < |s[1..]| ==> (FitsAt(s[1..], i) <==> FitsAt(s, i + 1));
    assert forall i :: 0 < i < |s| ==> (FitsAt(s, i) <==> FitsAt(s[1..], i - 1));
  }

  lemma {:induction false} TailAfterDot(parts: seq<string>, rest: seq<string>)
    requires |parts| > 1 && parts[0] == "" && parts[1..] == rest
    ensures Tail(parts) <==> Tail(rest) && rest[0] != "" && 'a' <= rest[0][0] <= 'z'
  {
    assert forall i :: 1 <= i < |parts| ==> parts[i] == rest[i - 1];
    assert forall i :: 0 <= i < |rest| ==> rest[i] == parts[i + 1];
    SegmentIsLetterAndTail(rest[0]);
  }

  lemma {:induction false} TailStep(parts: seq<string>, rest: seq<string>)
    requires parts != [] && rest != [] && parts[0] != "" && parts[0][1..] == rest[0] && parts[1..] == rest[1..]
    ensures Tail(parts) <==> Tail(rest) && KeyCharacter(parts[0][0])
  {
    assert forall i :: 1 <= i < |parts| ==> parts[i] == parts[1..][i - 1];
    assert forall i :: 1 <= i < |rest| ==> rest[i] == rest[1..][i - 1];
    assert parts[0] == [parts[0][0]] + rest[0];
  }

  /** A permission key: lower-case letters, digits, hyphens and at least one dot, with a letter first and after dots. */
  lemma {:induction false} PermissionKeyExactly(s: string)
    ensures S.PermissionKey(s) <==> s != "" && 'a' <= s[0] <= 'z' && '.' in s && Dotted(s)
  {
    TailDotted(s);
    var parts := Split(s, '.');
    SegmentIsLetterAndTail(parts[0]);
    if s != "" {
      SplitFirst(s);
    }
  }
}
