/**
 * Clean-up of DNS-SD service type strings (the `_service._proto.` names of
 * section 7 of RFC 6763) before they are handed to the event consumer:
 * at most one leading `.` is removed, at most one trailing `.` is removed,
 * and exactly one `.` is appended.
 */
module ServiceType {

  const Dot: char := '.'

  predicate HasLeadingDot(s: string)
  {
    |s| > 0 && s[0] == Dot
  }

  predicate HasTrailingDot(s: string)
  {
    |s| > 0 && s[|s| - 1] == Dot
  }

  /** Kotlin's `removePrefix(".")`: drops the first character only when it is a dot. */
  function RemoveLeadingDot(s: string): string
  {
    if HasLeadingDot(s) then s[1..] else s
  }

  /** Kotlin's `removeSuffix(".")`: drops the last character only when it is a dot. */
  function RemoveTrailingDot(s: string): string
  {
    if HasTrailingDot(s) then s[..|s| - 1] else s
  }

  /** The dot that `RemoveLeadingDot` takes away, as a string ("" or "."). */
  function LeadingDotOf(s: string): string
  {
    if HasLeadingDot(s) then [Dot] else []
  }

  /** The dot that `RemoveTrailingDot` takes away, as a string ("" or "."). */
  function TrailingDotOf(s: string): string
  {
    if HasTrailingDot(s) then [Dot] else []
  }

  /** The service type with its delimiters stripped and before the final dot is added. */
  function Core(raw: string): string
  {
    RemoveTrailingDot(RemoveLeadingDot(raw))
  }

  /**
   * The canonical service type reported in every event. The result always
   * ends with a dot, and the raw string is recovered from it by dropping
   * that dot and putting back the one leading and the one trailing dot that
   * were stripped: nothing but delimiters is ever removed.
   */
  function Canonical(raw: string): (r: string)
    ensures |r| > 0 && r[|r| - 1] == Dot
    ensures |raw| - 1 <= |r| <= |raw| + 1
    ensures var rest := raw[|LeadingDotOf(raw)|..];
            raw == LeadingDotOf(raw) + r[..|r| - 1] + TrailingDotOf(rest)
  {
    var c := Core(raw);
    CoreShape(raw);
    assert (c + [Dot])[..|c|] == c;
    c + [Dot]
  }

  /** The core is what remains between the stripped leading and trailing dots. */
  lemma CoreShape(raw: string)
    ensures var rest := raw[|LeadingDotOf(raw)|..];
            rest == RemoveLeadingDot(raw)
            && raw == LeadingDotOf(raw) + Core(raw) + TrailingDotOf(rest)
            && |raw| - 2 <= |Core(raw)| <= |raw|
  {
    var rest := RemoveLeadingDot(raw);
    if HasLeadingDot(raw) {
      assert raw == [Dot] + rest;
    } else {
      assert raw == [] + rest;
    }
    if HasTrailingDot(rest) {
      assert rest == Core(raw) + [Dot];
    } else {
      assert rest == Core(raw) + [];
    }
  }

  /** A type with no delimiter at either end only gets a dot appended. */
  lemma CanonicalOfUndotted(raw: string)
    requires !HasLeadingDot(raw) && !HasTrailingDot(raw)
    ensures Canonical(raw) == raw + "."
  {
  }

  /**
   * One optional dot at each end of an undotted type makes no difference:
   * all four decorations of `t` have the same canonical form, `t + "."`.
   */
  lemma CanonicalIgnoresDecoration(t: string)
    requires !HasLeadingDot(t) && !HasTrailingDot(t)
    ensures Canonical(t) == t + "."
    ensures Canonical("." + t) == t + "."
    ensures Canonical(t + ".") == t + "."
    ensures Canonical("." + t + ".") == t + "."
  {
    CanonicalOfUndotted(t);
    var lead := "." + t;
    var trail := t + ".";
    var both := "." + t + ".";
    assert RemoveLeadingDot(lead) == t;
    assert Core(lead) == t;
    assert both[1..] == trail;
    assert trail[..|t|] == t;
    assert RemoveTrailingDot(trail) == t;
    if |t| == 0 {
      assert trail == [Dot];
      assert both == [Dot, Dot];
      assert Core(trail) == t;
      assert Core(both) == t;
    } else {
      assert trail[0] == t[0];
      assert RemoveLeadingDot(trail) == trail;
      assert Core(trail) == t;
      assert RemoveLeadingDot(both) == trail;
      assert Core(both) == t;
    }
  }

  /**
   * Canonicalising twice changes nothing exactly when the stripped core does
   * not itself begin with a dot (a raw type with two leading dots keeps one
   * after the first pass and loses it on the second).
   */
  lemma {:induction false} CanonicalIdempotentIff(raw: string)
    ensures Canonical(Canonical(raw)) == Canonical(raw) <==> !HasLeadingDot(Core(raw))
  {
    var c := Core(raw);
    var once := c + [Dot];
    assert Canonical(raw) == once;
    if HasLeadingDot(c) {
      assert HasLeadingDot(once);
      assert |Canonical(once)| <= |once| - 1;
    } else {
      if |c| == 0 {
        assert once == [Dot];
        assert Core(once) == [];
      } else {
        assert once[0] == c[0];
        assert RemoveLeadingDot(once) == once;
        assert RemoveTrailingDot(once) == c;
      }
    }
  }

  /** `foo._tcp` only gets its dot appended. */
  lemma CanonicalExampleUndotted()
    ensures Canonical("foo._tcp") == "foo._tcp."
  {
    CanonicalOfUndotted("foo._tcp");
  }

  /** `.foo._tcp.` loses its leading dot and keeps one trailing dot. */
  lemma CanonicalExampleDotted()
    ensures Canonical(".foo._tcp.") == "foo._tcp."
  {
    var raw := ".foo._tcp.";
    assert HasLeadingDot(raw);
    assert raw[1..] == "foo._tcp.";
    assert RemoveTrailingDot("foo._tcp.") == "foo._tcp";
  }
}
