/**
 Text that is handed to snprintf as its format, with no arguments behind it: what ends up in the buffer, and when
 that is the text.
 */
module FormatText {
  import opened CText

  /**
   The text such a call prints. Two percent signs print one; any other percent sign starts a conversion without an
   argument, and from there on anything may be printed: stray is what that happens to be.
   */
  function Formatted(format: string, stray: string): string {
    if format == [] then []
    else if format[0] != '%' then [format[0]] + Formatted(format[1..], stray)
    else if |format| >= 2 && format[1] == '%' then ['%'] + Formatted(format[2..], stray)
    else stray
  }

  // snprintf (dst, size, format)
  function Printed(format: string, stray: string, size: nat): (r: string)
    requires size > 0
    ensures |r| < size
  {
    Clip(Formatted(format, stray), size)
  }

  // The first n characters, or all there are.
  function Front(s: string, n: nat): (r: string)
    ensures |r| == if |s| <= n then |s| else n
  {
    if |s| <= n then s else s[..n]
  }

  predicate PercentRun(format: string, n: nat) {
    n <= |format| && forall j :: 0 <= j < n ==> format[j] == '%'
  }

  /**
   Caller-checkable, for a buffer with room for so many characters: from a percent sign that fits on there are only
   percent signs, twice as many as there is room for. A text that is not cut short meets this only without any.
   */
  predicate PrintsItself(format: string, room: nat) {
    var shown := |Front(format, room)|;
    forall i :: 0 <= i < shown && format[i] == '%' ==> PercentRun(format[i..], 2 * (shown - i))
  }

  // One plain character in front changes nothing about the rest.
  lemma PlainPrintsItself(format: string, room: nat)
    requires format != [] && format[0] != '%' && room > 0
    ensures PrintsItself(format, room) <==> PrintsItself(format[1..], room - 1)
  {
    var rest := format[1..];
    var shown := |Front(format, room)|;
    assert |Front(rest, room - 1)| == shown - 1;
    assert forall i :: 1 <= i <= |format| ==> format[i..] == rest[i - 1..];
    if PrintsItself(format, room) {
      forall i | 0 <= i < shown - 1 && rest[i] == '%'
        ensures PercentRun(rest[i..], 2 * (shown - 1 - i))
      {
        assert format[i + 1] == '%';
        assert format[i + 1..] == rest[i..];
      }
    }
  }

  // With a percent sign first, all that is needed are percent signs.
  lemma PercentPrintsItself(format: string, room: nat)
    requires format != [] && format[0] == '%' && room > 0
    ensures PrintsItself(format, room) <==> PercentRun(format, 2 * room)
  {
    assert format[0..] == format;
  }

  lemma {:induction false} RunPrints(format: string, room: nat, stray: string)
    requires PercentRun(format, 2 * room)
    ensures |Formatted(format, stray)| >= room
    ensures forall k :: 0 <= k < room ==> Formatted(format, stray)[k] == '%'
    decreases room
  {
    if room > 0 {
      RunPrints(format[2..], room - 1, stray);
    }
  }

  lemma {:induction false} FrontPrints(format: string, room: nat, stray: string)
    requires PrintsItself(format, room)
    ensures Front(Formatted(format, stray), room) == Front(format, room)
    decreases |format|
  {
    if format != [] && room > 0 {
      if format[0] != '%' {
        PlainPrintsItself(format, room);
        FrontPrints(format[1..], room - 1, stray);
        assert Front(format, room) == [format[0]] + Front(format[1..], room - 1);
      } else {
        PercentPrintsItself(format, room);
        RunPrints(format, room, stray);
      }
    }
  }

  // How many percent signs a text begins with.
  function RunLength(format: string): (n: nat)
    ensures PercentRun(format, n) && (n == |format| || format[n] != '%')
  {
    if format == [] || format[0] != '%' then 0 else 1 + RunLength(format[1..])
  }

  // Half as many come out, and then what follows the run; after an odd run nothing, when nothing strays in.
  lemma {:induction false} RunOutput(format: string, n: nat)
    requires PercentRun(format, n) && (n == |format| || format[n] != '%')
    ensures var out := Formatted(format, "");
            if n % 2 == 1 || n == |format| then |out| == n / 2 else |out| > n / 2 && out[n / 2] == format[n]
    decreases n
  {
    if n >= 2 {
      RunOutput(format[2..], n - 2);
    }
  }

  lemma RunDiffers(format: string, room: nat)
    requires format != [] && format[0] == '%' && !PercentRun(format, 2 * room)
    ensures Front(Formatted(format, ""), room) != Front(format, room)
  {
    var n := RunLength(format);
    var out := Formatted(format, "");
    RunOutput(format, n);
    assert n < 2 * room && n > 0;
    var k := n / 2;
    assert k < |Front(format, room)| && Front(format, room)[k] == '%';
    if |out| > k {
      assert Front(out, room)[k] == out[k] == format[n];
    }
  }

  lemma PlainDiffers(format: string, room: nat)
    requires format != [] && format[0] != '%' && room > 0
    requires Front(Formatted(format[1..], ""), room - 1) != Front(format[1..], room - 1)
    ensures Front(Formatted(format, ""), room) != Front(format, room)
  {
    assert Front(format, room)[1..] == Front(format[1..], room - 1);
    assert Formatted(format, "")[1..] == Formatted(format[1..], "");
    assert Front(Formatted(format, ""), room)[1..] == Front(Formatted(format, "")[1..], room - 1);
  }

  lemma {:induction false} FrontDiffers(format: string, room: nat)
    requires !PrintsItself(format, room)
    ensures Front(Formatted(format, ""), room) != Front(format, room)
    decreases |format|
  {
    if format[0] != '%' {
      PlainPrintsItself(format, room);
      FrontDiffers(format[1..], room - 1);
      PlainDiffers(format, room);
    } else {
      PercentPrintsItself(format, room);
      RunDiffers(format, room);
    }
  }

  /**
   The buffer holds the text, cut to its size, whatever strays in, if and only if the text prints itself.
   */
  lemma PrintedExactly(format: string, size: nat)
    requires size > 0
    ensures (forall stray: string :: Printed(format, stray, size) == Clip(format, size)) <==> PrintsItself(format, size - 1)
    ensures !PrintsItself(format, size - 1) ==> Printed(format, "", size) != Clip(format, size)
  {
    assert forall s: string :: Clip(s, size) == Front(s, size - 1);
    if PrintsItself(format, size - 1) {
      forall stray: string
        ensures Printed(format, stray, size) == Clip(format, size)
      {
        FrontPrints(format, size - 1, stray);
      }
    } else {
      FrontDiffers(format, size - 1);
      assert Printed(format, "", size) != Clip(format, size);
    }
  }

  lemma {:induction false} FormattedShrinks(format: string)
    ensures |Formatted(format, "")| <= |format|
    ensures '%' in format ==> |Formatted(format, "")| < |format|
    decreases |format|
  {
    if format != [] && format[0] != '%' {
      FormattedShrinks(format[1..]);
    } else if |format| >= 2 && format[1] == '%' {
      FormattedShrinks(format[2..]);
    }
  }

  /** For a text that fits into its buffer that is: it has no percent sign. Otherwise its printout may be shorter. */
  lemma PrintedShort(format: string, size: nat)
    requires |format| < size
    ensures PrintsItself(format, size - 1) <==> '%' !in format
    ensures '%' !in format ==> forall stray: string :: Printed(format, stray, size) == format
    ensures '%' in format ==> |Printed(format, "", size)| < |format|
  {
    PrintedExactly(format, size);
    if '%' in format {
      FormattedShrinks(format);
      assert Printed(format, "", size) != Clip(format, size);
    }
  }

  /** A doubled percent sign is stored once. */
  lemma DoubledPrintsOnce(stray: string)
    ensures Printed("a%%b", stray, 64) == "a%b"
  {
    assert "a%%b"[1..] == "%%b" && "%%b"[2..] == "b" && "b"[1..] == "";
    assert Formatted("b", stray) == "b";
    assert Formatted("%%b", stray) == "%b";
  }
}
