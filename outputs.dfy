/** Validated governance directives (governing_brain/outputs.py). Building a
    directive either raises ValueError or yields a record whose bounds hold
    and whose capabilities are normalised. */
module Outputs {
  import opened Common
  import opened Strategies

  datatype GovernanceDirective = GovernanceDirective(
    strategy: Strategy,
    requiredStrictness: real,
    allowedCapabilities: seq<string>,
    escalationLimit: real,
    recoveryAllowed: bool,
    explanationRequired: bool)

  /** An entry of the capability list as a caller passes it; the Python code
      checks at run time that each entry is a string. */
  datatype RawCapability = Text(text: string) | NotText

  /** The ValueError raised by the first check that fails. */
  datatype DirectiveError =
    | StrictnessOutOfRange(strictness: real)
    | EscalationOutOfRange(escalation: real)
    | InvalidCapability

  // ----- ASCII approximations of str.strip and str.lower -----

  /** The ASCII characters `str.isspace` accepts: tab through carriage return,
      the four separators 0x1C-0x1F, and space. */
  predicate IsWhitespace(c: char) {
    '\t' <= c <= '\r' || '\U{1C}' <= c <= '\U{1F}' || c == ' '
  }

  /** `str.lstrip()`. */
  function TrimStart(s: string): (r: string)
    ensures r != [] ==> !IsWhitespace(r[0])
  {
    if s != [] && IsWhitespace(s[0]) then TrimStart(s[1..]) else s
  }

  /** `str.rstrip()`. */
  function TrimEnd(s: string): (r: string)
    ensures r != [] ==> !IsWhitespace(r[|r| - 1])
  {
    if s != [] && IsWhitespace(s[|s| - 1]) then TrimEnd(s[..|s| - 1]) else s
  }

  /** `TrimStart` keeps a suffix and drops only whitespace before it. */
  lemma {:induction false} TrimStartDropsWhitespace(s: string)
    ensures |TrimStart(s)| <= |s| && TrimStart(s) == s[|s| - |TrimStart(s)|..]
    ensures forall i :: 0 <= i < |s| - |TrimStart(s)| ==> IsWhitespace(s[i])
  {
    if s != [] && IsWhitespace(s[0]) {
      TrimStartDropsWhitespace(s[1..]);
    }
  }

  /** `TrimEnd` keeps a prefix and drops only whitespace after it. */
  lemma {:induction false} TrimEndDropsWhitespace(s: string)
    ensures |TrimEnd(s)| <= |s| && TrimEnd(s) == s[..|TrimEnd(s)|]
    ensures forall i :: |TrimEnd(s)| <= i < |s| ==> IsWhitespace(s[i])
  {
    if s != [] && IsWhitespace(s[|s| - 1]) {
      TrimEndDropsWhitespace(s[..|s| - 1]);
    }
  }

  /** `str.strip()`: the slice of `s` left after dropping whitespace at both
      ends; it neither starts nor ends with whitespace. */
  function Strip(s: string): (r: string)
    ensures r != [] ==> !IsWhitespace(r[0]) && !IsWhitespace(r[|r| - 1])
  {
    TrimEndDropsWhitespace(TrimStart(s));
    TrimEnd(TrimStart(s))
  }

  /** What `Strip` keeps is one slice of its input, and everything it drops
      around that slice is whitespace. */
  lemma StripIsSlice(s: string)
    ensures exists i, j :: (0 <= i <= j <= |s| && Strip(s) == s[i..j]
      && (forall k :: 0 <= k < i ==> IsWhitespace(s[k]))
      && (forall k :: j <= k < |s| ==> IsWhitespace(s[k])))
  {
    var t := TrimStart(s);
    var r := TrimEnd(t);
    TrimStartDropsWhitespace(s);
    TrimEndDropsWhitespace(t);
    var i := |s| - |t|;
    assert r == s[i..i + |r|];
    assert forall k :: i + |r| <= k < |s| ==> s[k] == t[k - i];
  }

  function LowerChar(c: char): char {
    if 'A' <= c <= 'Z' then (c as int + 32) as char else c
  }

  /** `str.lower()` on ASCII letters. */
  function Lower(s: string): (r: string)
    ensures |r| == |s|
    ensures forall i :: 0 <= i < |s| ==> r[i] == LowerChar(s[i])
  {
    seq(|s|, i requires 0 <= i < |s| => LowerChar(s[i]))
  }

  // ----- Capability normalisation -----

  /** A capability the constructor accepts: a string with something other
      than whitespace in it. */
  predicate ValidCapability(c: RawCapability) {
    c.Text? && Strip(c.text) != []
  }

  /** `cap.strip().lower()`. */
  function NormalizeCapability(c: RawCapability): string
    requires ValidCapability(c)
  {
    Lower(Strip(c.text))
  }

  /** The capability list the constructor stores, or its failure: it fails
      exactly when some entry is invalid, and otherwise keeps length and order
      and normalises each entry. */
  function Normalized(caps: seq<RawCapability>): (r: Result<seq<string>, DirectiveError>)
    ensures r.Failure? <==> exists i :: 0 <= i < |caps| && !ValidCapability(caps[i])
    ensures r.Failure? ==> r.error == InvalidCapability
    ensures r.Success? ==> (|r.value| == |caps|
      && forall i :: 0 <= i < |caps| ==> ValidCapability(caps[i]) && r.value[i] == NormalizeCapability(caps[i]))
  {
    if caps == [] then Success([])
    else
      var init := caps[..|caps| - 1];
      var last := caps[|caps| - 1];
      var rest := Normalized(init);
      if rest.Failure? then
        ghost var i :| 0 <= i < |init| && !ValidCapability(init[i]);
        assert caps[i] == init[i];
        rest
      else if ValidCapability(last) then
        var all := rest.value + [NormalizeCapability(last)];
        assert forall i :: 0 <= i < |init| ==> caps[i] == init[i] && all[i] == rest.value[i];
        Success(all)
      else Failure(InvalidCapability)
  }

  /** The normalisation loop of `__post_init__`: appends each stripped,
      lower-cased entry, raising at the first invalid one. */
  method NormalizeCapabilities(caps: seq<RawCapability>) returns (r: Result<seq<string>, DirectiveError>)
    ensures r == Normalized(caps)
  {
    var normalizedCaps: seq<string> := [];
    for i := 0 to |caps|
      invariant Normalized(caps[..i]) == Success(normalizedCaps)
    {
      var cap := caps[i];
      assert caps[..i + 1][..i] == caps[..i];
      if !cap.Text? || Strip(cap.text) == [] {
        FailureExtends(caps[..i + 1], caps);
        return Failure(InvalidCapability);
      }
      normalizedCaps := normalizedCaps + [Lower(Strip(cap.text))];
    }
    assert caps[..|caps|] == caps;
    r := Success(normalizedCaps);
  }

  /** Once a prefix of the list fails, the whole list fails. */
  lemma FailureExtends(prefix: seq<RawCapability>, caps: seq<RawCapability>)
    requires prefix <= caps && Normalized(prefix).Failure?
    ensures Normalized(caps) == Failure(InvalidCapability)
  {
    var i :| 0 <= i < |prefix| && !ValidCapability(prefix[i]);
    assert caps[i] == prefix[i];
  }

  // ----- Directive construction -----

  predicate InUnitInterval(x: real) { 0.0 <= x <= 1.0 }

  /** What every constructed directive satisfies: both bounds in [0,1] and
      every capability non-empty and already normalised. */
  predicate WellFormed(d: GovernanceDirective) {
    && InUnitInterval(d.requiredStrictness)
    && InUnitInterval(d.escalationLimit)
    && forall i :: 0 <= i < |d.allowedCapabilities| ==>
         d.allowedCapabilities[i] != [] && Lower(Strip(d.allowedCapabilities[i])) == d.allowedCapabilities[i]
  }

  /** `GovernanceDirective(...)` with its `__post_init__`: the strictness check
      first, then the escalation check, then the capability check; on success
      the record keeps its other fields and stores the normalised capabilities. */
  function NewDirective(strategy: Strategy, requiredStrictness: real, allowedCapabilities: seq<RawCapability>,
                        escalationLimit: real, recoveryAllowed: bool, explanationRequired: bool)
    : (r: Result<GovernanceDirective, DirectiveError>)
    ensures !InUnitInterval(requiredStrictness) ==> r == Failure(StrictnessOutOfRange(requiredStrictness))
    ensures InUnitInterval(requiredStrictness) && !InUnitInterval(escalationLimit) ==>
      r == Failure(EscalationOutOfRange(escalationLimit))
    ensures InUnitInterval(requiredStrictness) && InUnitInterval(escalationLimit) ==>
      (r.Failure? <==> exists i :: 0 <= i < |allowedCapabilities| && !ValidCapability(allowedCapabilities[i]))
    ensures InUnitInterval(requiredStrictness) && InUnitInterval(escalationLimit) && r.Failure? ==>
      r.error == InvalidCapability
    ensures r.Failure? ==> (r.error != InvalidCapability ||
      exists i :: 0 <= i < |allowedCapabilities| && !ValidCapability(allowedCapabilities[i]))
    ensures r.Success? ==>
      && WellFormed(r.value)
      && r.value.strategy == strategy
      && r.value.requiredStrictness == requiredStrictness
      && r.value.escalationLimit == escalationLimit
      && r.value.recoveryAllowed == recoveryAllowed
      && r.value.explanationRequired == explanationRequired
      && |r.value.allowedCapabilities| == |allowedCapabilities|
      && forall i :: 0 <= i < |allowedCapabilities| ==>
           r.value.allowedCapabilities[i] == NormalizeCapability(allowedCapabilities[i])
  {
    if !InUnitInterval(requiredStrictness) then Failure(StrictnessOutOfRange(requiredStrictness))
    else if !InUnitInterval(escalationLimit) then Failure(EscalationOutOfRange(escalationLimit))
    else
      match Normalized(allowedCapabilities)
      case Failure(e) => Failure(e)
      case Success(caps) =>
        var d := GovernanceDirective(strategy, requiredStrictness, caps, escalationLimit,
                                     recoveryAllowed, explanationRequired);
        forall i | 0 <= i < |caps|
          ensures caps[i] != [] && Lower(Strip(caps[i])) == caps[i]
        {
          NormalizeIsStable(allowedCapabilities[i].text);
        }
        Success(d)
  }

  // ----- Normalisation is idempotent -----

  lemma LowerCharKeepsWhitespace(c: char)
    ensures IsWhitespace(LowerChar(c)) <==> IsWhitespace(c)
    ensures LowerChar(LowerChar(c)) == LowerChar(c)
  {
  }

  /** Stripping a string that neither starts nor ends with whitespace leaves it as is. */
  lemma StripTrimmed(s: string)
    requires s != [] ==> !IsWhitespace(s[0]) && !IsWhitespace(s[|s| - 1])
    ensures Strip(s) == s
  {
  }

  /** A normalised capability is non-empty and normalising it again changes nothing. */
  lemma NormalizeIsStable(text: string)
    requires Strip(text) != []
    ensures var n := Lower(Strip(text));
      n != [] && Lower(Strip(n)) == n
  {
    var t := Strip(text);
    var n := Lower(t);
    LowerCharKeepsWhitespace(t[0]);
    LowerCharKeepsWhitespace(t[|t| - 1]);
    StripTrimmed(n);
    forall i | 0 <= i < |n| ensures Lower(n)[i] == n[i] {
      LowerCharKeepsWhitespace(t[i]);
    }
  }

  /** The capability list as it was passed in, rebuilt from stored strings. */
  function AsRaw(caps: seq<string>): (r: seq<RawCapability>)
    ensures |r| == |caps| && forall i :: 0 <= i < |caps| ==> r[i] == Text(caps[i])
  {
    seq(|caps|, i requires 0 <= i < |caps| => Text(caps[i]))
  }

  /** Rebuilding a directive from a constructed one's own fields succeeds and
      yields the same directive: normalisation is idempotent. */
  lemma RebuildIsIdentity(d: GovernanceDirective)
    requires WellFormed(d)
    ensures NewDirective(d.strategy, d.requiredStrictness, AsRaw(d.allowedCapabilities),
                         d.escalationLimit, d.recoveryAllowed, d.explanationRequired) == Success(d)
  {
    var caps := d.allowedCapabilities;
    forall i | 0 <= i < |caps|
      ensures ValidCapability(AsRaw(caps)[i]) && NormalizeCapability(AsRaw(caps)[i]) == caps[i]
    {
      var c := caps[i];
      assert Lower(Strip(c)) == c;
    }
    var r := NewDirective(d.strategy, d.requiredStrictness, AsRaw(caps),
                          d.escalationLimit, d.recoveryAllowed, d.explanationRequired);
    assert r.Success?;
    assert r.value.allowedCapabilities == caps;
  }
}
