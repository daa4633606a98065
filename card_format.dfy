/**
 * `formatCardNumber` of the checkout page: drop every whitespace character,
 * cut what is left into runs of at most four characters
 * (`match(/.{1,4}/g)`) and join the runs with single spaces, falling back
 * to the cleaned string when the join is falsy.
 */
module CardFormat {
  import opened JsValues

  /** `s.replace(/\s/g, '')`. */
  function StripWhitespace(s: string): (r: string)
    ensures NoWhitespace(r)
    ensures |r| <= |s|
  {
    if s == [] then []
    else (if IsJsWhitespace(s[0]) then [] else [s[0]]) + StripWhitespace(s[1..])
  }

  /** `s` with every occurrence of `c` removed. */
  function Without(s: string, c: char): (r: string)
    ensures c !in r
  {
    if s == [] then []
    else (if s[0] == c then [] else [s[0]]) + Without(s[1..], c)
  }

  /**
   * Length of the longest prefix of `s` of at most `max` characters that
   * the regular-expression `.` matches, that is, free of line terminators.
   */
  function LeadingRun(s: string, max: nat): (n: nat)
    ensures n <= max && n <= |s|
    ensures forall i :: 0 <= i < n ==> !IsLineTerminator(s[i])
    ensures n < max && n < |s| ==> IsLineTerminator(s[n])
  {
    if max == 0 || s == [] || IsLineTerminator(s[0]) then 0
    else 1 + LeadingRun(s[1..], max - 1)
  }

  /**
   * The matches of the global pattern `/.{1,4}/g`, left to right, each as
   * long as possible; a position where `.` cannot match is skipped. The
   * empty sequence stands for the `null` that `match` returns when nothing
   * matched.
   */
  function MatchGroups(s: string): (gs: seq<string>)
    decreases |s|
  {
    if s == [] then []
    else
      var n := LeadingRun(s, 4);
      if n == 0 then MatchGroups(s[1..]) else [s[..n]] + MatchGroups(s[n..])
  }

  /** `groups.join(' ')`. */
  function JoinWithSpaces(groups: seq<string>): string
  {
    if |groups| == 0 then ""
    else if |groups| == 1 then groups[0]
    else groups[0] + " " + JoinWithSpaces(groups[1..])
  }

  /** `formatCardNumber(value)`. */
  function FormatCardNumber(value: string): string
  {
    var cleaned := StripWhitespace(value);
    var groups := MatchGroups(cleaned);
    // optional chaining yields undefined when `match` returned null
    var joined: Option<string> := if groups == [] then None else Some(JoinWithSpaces(groups));
    if joined.Some? && joined.value != "" then joined.value else cleaned
  }

  /** The intended layout: blocks of four separated by one space. */
  function Grouped(c: string): string
    decreases |c|
  {
    if |c| <= 4 then c else c[..4] + " " + Grouped(c[4..])
  }

  // ----- properties of the pieces -----

  lemma {:induction false} StripAppend(a: string, b: string)
    ensures StripWhitespace(a + b) == StripWhitespace(a) + StripWhitespace(b)
  {
    if a != [] {
      assert (a + b)[0] == a[0] && (a + b)[1..] == a[1..] + b;
      StripAppend(a[1..], b);
    } else {
      assert a + b == b;
    }
  }

  lemma {:induction false} WithoutAppend(a: string, b: string, c: char)
    ensures Without(a + b, c) == Without(a, c) + Without(b, c)
  {
    if a != [] {
      assert (a + b)[0] == a[0] && (a + b)[1..] == a[1..] + b;
      WithoutAppend(a[1..], b, c);
    } else {
      assert a + b == b;
    }
  }

  /** Stripping a string that holds no whitespace changes nothing. */
  lemma {:induction false} StripClean(c: string)
    requires NoWhitespace(c)
    ensures StripWhitespace(c) == c
  {
    if c != [] {
      StripClean(c[1..]);
    }
  }

  lemma {:induction false} WithoutAbsent(s: string, c: char)
    requires c !in s
    ensures Without(s, c) == s
  {
    if s != [] {
      WithoutAbsent(s[1..], c);
    }
  }

  /** Stripping leaves nothing exactly when every character is whitespace. */
  lemma {:induction false} StripEmptyIff(s: string)
    ensures StripWhitespace(s) == "" <==> forall i :: 0 <= i < |s| ==> IsJsWhitespace(s[i])
  {
    if s != [] {
      StripEmptyIff(s[1..]);
      assert forall i :: 1 <= i < |s| ==> s[i] == s[1..][i - 1];
    }
  }

  lemma {:induction false} LeadingRunClean(s: string, max: nat)
    requires NoWhitespace(s)
    ensures LeadingRun(s, max) == if |s| < max then |s| else max
  {
    if max != 0 && s != [] {
      LeadingRunClean(s[1..], max - 1);
    }
  }

  /**
   * On a string without whitespace the regular-expression match finds the
   * consecutive blocks of four, and joining them gives the grouped layout.
   */
  lemma {:induction false} MatchGroupsJoined(c: string)
    requires NoWhitespace(c) && c != ""
    ensures MatchGroups(c) != []
    ensures JoinWithSpaces(MatchGroups(c)) == Grouped(c)
    decreases |c|
  {
    LeadingRunClean(c, 4);
    if |c| > 4 {
      var rest := MatchGroups(c[4..]);
      MatchGroupsJoined(c[4..]);
      assert MatchGroups(c) == [c[..4]] + rest;
      assert ([c[..4]] + rest)[1..] == rest;
    } else {
      assert c[..|c|] == c && c[|c|..] == [];
      assert MatchGroups(c) == [c[..|c|]] + MatchGroups(c[|c|..]);
    }
  }

  lemma {:induction false} GroupedLength(c: string)
    ensures |Grouped(c)| == if c == "" then 0 else |c| + (|c| - 1) / 4
    decreases |c|
  {
    if |c| > 4 {
      GroupedLength(c[4..]);
    }
  }

  /**
   * Position by position: every fifth character of the layout is a space,
   * and the others are the input's characters in order.
   */
  lemma {:induction false} GroupedAt(c: string, i: nat)
    requires i < |Grouped(c)|
    ensures i % 5 == 4 ==> Grouped(c)[i] == ' '
    ensures i % 5 != 4 ==> i - i / 5 < |c| && Grouped(c)[i] == c[i - i / 5]
    decreases |c|
  {
    if |c| > 4 {
      GroupedLength(c[4..]);
      if i >= 5 {
        GroupedAt(c[4..], i - 5);
        assert Grouped(c)[i] == Grouped(c[4..])[i - 5];
        assert (i - 5) % 5 == i % 5 && (i - 5) / 5 == i / 5 - 1;
      }
    }
  }

  lemma {:induction false} GroupedStrip(c: string)
    requires NoWhitespace(c)
    ensures StripWhitespace(Grouped(c)) == c
    ensures Without(Grouped(c), ' ') == c
    decreases |c|
  {
    if |c| > 4 {
      GroupedStrip(c[4..]);
      StripAppend(c[..4] + " ", Grouped(c[4..]));
      StripAppend(c[..4], " ");
      WithoutAppend(c[..4] + " ", Grouped(c[4..]), ' ');
      WithoutAppend(c[..4], " ", ' ');
      StripClean(c[..4]);
      WithoutAbsent(c[..4], ' ');
      assert c[..4] + c[4..] == c;
    } else {
      StripClean(c);
      WithoutAbsent(c, ' ');
    }
  }

  // ----- what formatCardNumber promises -----

  /** The regular-expression pipeline computes the grouped layout of the cleaned input. */
  lemma FormatIsGrouped(value: string)
    ensures FormatCardNumber(value) == Grouped(StripWhitespace(value))
  {
    var c := StripWhitespace(value);
    if c != "" {
      MatchGroupsJoined(c);
      GroupedLength(c);
    }
  }

  /**
   * Round trip: taking the spaces (or all whitespace) out of the formatted
   * value gives back the input with its whitespace removed.
   */
  lemma FormatRoundTrip(value: string)
    ensures Without(FormatCardNumber(value), ' ') == StripWhitespace(value)
    ensures StripWhitespace(FormatCardNumber(value)) == StripWhitespace(value)
  {
    FormatIsGrouped(value);
    GroupedStrip(StripWhitespace(value));
  }

  /**
   * Shape: a space sits exactly at every fifth position, the other positions
   * carry the cleaned input in order, and the value never ends in a space,
   * so every block has four characters except the last, which has one to four.
   */
  lemma FormatShape(value: string)
    ensures var f, c := FormatCardNumber(value), StripWhitespace(value);
      && |f| == (if c == "" then 0 else |c| + (|c| - 1) / 4)
      && (f == "" || |f| % 5 != 0)
  {
    var c := StripWhitespace(value);
    FormatIsGrouped(value);
    GroupedLength(c);
  }

  lemma FormatChars(value: string, i: nat)
    requires i < |FormatCardNumber(value)|
    ensures var f, c := FormatCardNumber(value), StripWhitespace(value);
      && (f[i] == ' ' <==> i % 5 == 4)
      && (i % 5 != 4 ==> i - i / 5 < |c| && f[i] == c[i - i / 5])
  {
    var c := StripWhitespace(value);
    FormatIsGrouped(value);
    GroupedAt(c, i);
  }

  /** Empty or all-whitespace input, and only such input, formats to "". */
  lemma FormatBlank(value: string)
    ensures FormatCardNumber(value) == "" <==> forall i :: 0 <= i < |value| ==> IsJsWhitespace(value[i])
  {
    FormatIsGrouped(value);
    GroupedLength(StripWhitespace(value));
    StripEmptyIff(value);
  }

  /** Formatting an already formatted value leaves it unchanged. */
  lemma FormatIdempotent(value: string)
    ensures FormatCardNumber(FormatCardNumber(value)) == FormatCardNumber(value)
  {
    FormatRoundTrip(value);
    FormatIsGrouped(value);
    FormatIsGrouped(FormatCardNumber(value));
  }
}
