/**
 * The session header's derived texts: the session's duration, written in
 * whole minutes and hours, and the session id, shown shortened and copied
 * as a resume command.
 */
module SessionMetadataHeader {
  import opened Wrappers
  import opened Strings

  const MsPerMinute: int := 60000

  /**
   * The duration of a session lasting `ms` milliseconds (end minus start;
   * negative when the end comes first), rounded down to whole minutes.
   */
  function FormatDuration(ms: int): (text: string)
    ensures text == "< 1 min" <==> ms < MsPerMinute
    ensures ms >= MsPerMinute ==> |text| >= 2 && (text[|text| - 1] == 'm' || text[|text| - 1] == 'h')
  {
    if ms < MsPerMinute then "< 1 min"
    else
      var totalMinutes := ms / MsPerMinute;
      var hours := totalMinutes / 60;
      var minutes := totalMinutes % 60;
      var text :=
        if hours == 0 then NatToString(minutes) + "m"
        else if minutes == 0 then NatToString(hours) + "h"
        else NatToString(hours) + "h " + NatToString(minutes) + "m";
      assert "< 1 min"[6] == 'n' && text[|text| - 1] != 'n';
      text
  }

  /**
   * The three forms of a duration of a minute or more, in its whole
   * minutes `t` rounded down: `tm` under an hour, `hh` for a whole number
   * of hours, and `hh mm` with 1 to 59 minutes left over otherwise.
   */
  lemma DurationForm(ms: int)
    requires ms >= MsPerMinute
    ensures var t := ms / MsPerMinute;
            t >= 1 && t * MsPerMinute <= ms < (t + 1) * MsPerMinute &&
            (t < 60 ==> FormatDuration(ms) == NatToString(t) + "m") &&
            (t >= 60 && t % 60 == 0 ==> FormatDuration(ms) == NatToString(t / 60) + "h") &&
            (t >= 60 && t % 60 != 0 ==>
               1 <= t % 60 <= 59 && FormatDuration(ms) == NatToString(t / 60) + "h " + NatToString(t % 60) + "m")
  {
    var t := ms / MsPerMinute;
    if t < 60 {
      assert t / 60 == 0 && t % 60 == t;
    }
  }

  /** 90 minutes is written "1h 30m", not "90m". */
  lemma NinetyMinutes()
    ensures FormatDuration(5400000) == "1h 30m"
  {
    DurationForm(5400000);
    assert NatToString(1) == "1" && NatToString(30) == "30";
  }

  /** One word of a written duration: a number followed by its unit, `m` or `h`. */
  function ParseWord(w: string): Option<(nat, char)> {
    if |w| >= 1 && (w[|w| - 1] == 'm' || w[|w| - 1] == 'h') then
      match ParseNat(w[..|w| - 1])
      case Some(n) => Some((n, w[|w| - 1]))
      case None => None
    else None
  }

  /** Reads a written duration back as a number of whole minutes. */
  function ParseDuration(s: string): Option<nat> {
    var words := Split(s, ' ');
    if |words| == 1 then OneWordMinutes(words[0])
    else if |words| == 2 then TwoWordsMinutes(words[0], words[1])
    else None
  }

  /** `Nm` is N minutes and `Nh` is N hours. */
  function OneWordMinutes(w: string): Option<nat> {
    match ParseWord(w)
    case Some((n, unit)) => if unit == 'm' then Some(n) else Some(n * 60)
    case None => None
  }

  /** `Hh Mm` is H hours and M minutes. */
  function TwoWordsMinutes(hw: string, mw: string): Option<nat> {
    var h, m := ParseWord(hw), ParseWord(mw);
    if h.Some? && h.value.1 == 'h' && m.Some? && m.value.1 == 'm' then Some(h.value.0 * 60 + m.value.0) else None
  }

  lemma ParseWordOf(n: nat, unit: char)
    requires unit == 'm' || unit == 'h'
    ensures ' ' !in NatToString(n) + [unit]
    ensures ParseWord(NatToString(n) + [unit]) == Some((n, unit))
  {
    var w := NatToString(n) + [unit];
    var d := NatToString(n);
    assert forall k :: 0 <= k < |d| ==> IsDigit(d[k]);
    assert w[..|w| - 1] == d;
    ParseNatToString(n);
  }

  /** Words without spaces, joined by single spaces, split back into those words. */
  lemma SplitWords2(a: string, b: string)
    requires ' ' !in a && ' ' !in b
    ensures Split(a + [' '] + b, ' ') == [a, b]
  {
    SplitConcat(a, b, ' ');
    SplitNoSep(a, ' ');
    SplitNoSep(b, ' ');
  }

  lemma SplitWords3(a: string, b: string, c: string)
    requires ' ' !in a && ' ' !in b && ' ' !in c
    ensures |Split(a + [' '] + b + [' '] + c, ' ')| == 3
  {
    SplitConcat(a + [' '] + b, c, ' ');
    SplitWords2(a, b);
    SplitNoSep(c, ' ');
  }

  /** The text for under a minute does not read as a duration. */
  lemma UnderAMinuteUnread()
    ensures ParseDuration("< 1 min") == None
  {
    SplitWords3("<", "1", "min");
    assert "< 1 min" == "<" + [' '] + "1" + [' '] + "min";
  }

  /** One word, a number and its unit, reads back as that many minutes or hours. */
  lemma OneWordRoundTrip(n: nat, unit: char)
    requires unit == 'm' || unit == 'h'
    ensures ParseDuration(NatToString(n) + [unit]) == Some(if unit == 'm' then n else n * 60)
  {
    ParseWordOf(n, unit);
    SplitNoSep(NatToString(n) + [unit], ' ');
  }

  /** Hours and minutes, two words, read back as their total in minutes. */
  lemma TwoWordsRoundTrip(h: nat, m: nat)
    ensures ParseDuration(NatToString(h) + "h " + NatToString(m) + "m") == Some(h * 60 + m)
  {
    var hw, mw := NatToString(h) + "h", NatToString(m) + "m";
    ParseWordOf(h, 'h');
    ParseWordOf(m, 'm');
    HoursMinutesWords(NatToString(h), NatToString(m));
    SplitWords2(hw, mw);
  }

  lemma HoursMinutesWords(a: string, b: string)
    ensures a + "h " + b + "m" == (a + "h") + [' '] + (b + "m")
  {
  }

  /**
   * Every written duration of a minute or more reads back as its exact
   * number of whole minutes; under a minute reads back as nothing, so the
   * text is "< 1 min" exactly when the duration is under a minute.
   */
  lemma DurationRoundTrip(ms: int)
    ensures ms >= MsPerMinute ==> ParseDuration(FormatDuration(ms)) == Some(ms / MsPerMinute)
    ensures ms < MsPerMinute ==> ParseDuration(FormatDuration(ms)) == None
    ensures FormatDuration(ms) == "< 1 min" <==> ms < MsPerMinute
  {
    UnderAMinuteUnread();
    if ms >= MsPerMinute {
      var totalMinutes := ms / MsPerMinute;
      var hours := totalMinutes / 60;
      var minutes := totalMinutes % 60;
      if hours == 0 {
        OneWordRoundTrip(minutes, 'm');
      } else if minutes == 0 {
        OneWordRoundTrip(hours, 'h');
      } else {
        TwoWordsRoundTrip(hours, minutes);
      }
    }
  }

  /** Two durations are written alike exactly when they have the same whole minutes, or are both under one. */
  lemma DurationTextDetermined(a: int, b: int)
    ensures FormatDuration(a) == FormatDuration(b) <==>
              (a < MsPerMinute && b < MsPerMinute) ||
              (a >= MsPerMinute && b >= MsPerMinute && a / MsPerMinute == b / MsPerMinute)
  {
    DurationRoundTrip(a);
    DurationRoundTrip(b);
  }

  /** The id as shown: its first eight characters. */
  function ShortId(id: string): (r: string)
    ensures |r| == if |id| < 8 then |id| else 8
    ensures StartsWith(id, r)
  {
    Take(id, 8)
  }

  /** The command the copy button puts on the clipboard. */
  function ResumeCommand(id: string): (r: string)
    ensures StartsWith(r, "claude --resume ") && r[16..] == id
  {
    "claude --resume " + id
  }

  /** The shown id is the start of the id the copied command resumes. */
  lemma ShortIdInCommand(id: string)
    ensures StartsWith(ResumeCommand(id)[16..], ShortId(id))
    ensures |id| <= 8 ==> ShortId(id) == id
  {
  }
}
