/** The profile header on the home tab: the health-score colour bands, the
    "time ago" label of the last transaction and the initials in the
    avatar. Time is an integer number of milliseconds since the
    transaction; reading the clock is not modelled. */
module EnhancedUserProfile {
  import opened Js
  import opened Strings

  const MillisPerHour: int := 1000 * 60 * 60
  const MillisPerDay: int := 24 * MillisPerHour

  /** The score the component shows. */
  const FinancialHealthScore: int := 99

  // ---------------------------------------------------------------------
  // Health score colours
  // ---------------------------------------------------------------------

  /** `getHealthScoreColor`. */
  function HealthScoreColor(score: int): string
  {
    if score >= 80 then "bg-emerald-500"
    else if score >= 60 then "bg-amber-500"
    else "bg-red-500"
  }

  /** `getHealthScoreTextColor`. */
  function HealthScoreTextColor(score: int): string
  {
    if score >= 80 then "text-emerald-500"
    else if score >= 60 then "text-amber-500"
    else "text-red-500"
  }

  /** Emerald from 80, amber from 60 to 79, red below 60, for both the
      background and the text. */
  lemma HealthBands(score: int)
    ensures HealthScoreColor(score) == "bg-emerald-500" <==> score >= 80
    ensures HealthScoreColor(score) == "bg-amber-500" <==> 60 <= score < 80
    ensures HealthScoreColor(score) == "bg-red-500" <==> score < 60
    ensures HealthScoreTextColor(score) == "text-" + HealthScoreColor(score)[3..]
  {
  }

  /** The two functions split the scores into the same bands. */
  lemma SameBands(a: int, b: int)
    ensures HealthScoreColor(a) == HealthScoreColor(b) <==> HealthScoreTextColor(a) == HealthScoreTextColor(b)
  {
    HealthBands(a);
    HealthBands(b);
  }

  lemma ShownScoreIsEmerald()
    ensures HealthScoreColor(FinancialHealthScore) == "bg-emerald-500"
  {
  }

  // ---------------------------------------------------------------------
  // Time ago
  // ---------------------------------------------------------------------

  /** `getTimeAgo` for a difference of `diff` milliseconds. `Math.floor`
      of a quotient by a positive divisor is Dafny's `/`. */
  function TimeAgo(diff: int): string
  {
    var hours := diff / MillisPerHour;
    if hours < 24 then IntToString(hours) + "h ago" else IntToString(hours / 24) + "d ago"
  }

  datatype Unit = Hours | Days

  /** Reads a label back: the number and the unit. */
  function ParseAgo(text: string): Option<(int, Unit)>
  {
    if |text| < 6 || text[|text| - 4..] != " ago" then None
    else
      var unit := text[|text| - 5];
      match ParseInt(text[..|text| - 5])
      case None => None
      case Some(n) =>
        if unit == 'h' then Some((n, Hours)) else if unit == 'd' then Some((n, Days)) else None
  }

  /** The number rendered before `unit + " ago"` reads back. */
  lemma ReadBack(n: int, unit: char)
    ensures var text := IntToString(n) + [unit] + " ago";
      |text| >= 6 && text[|text| - 4..] == " ago" && text[|text| - 5] == unit
      && text[..|text| - 5] == IntToString(n)
      && ParseInt(text[..|text| - 5]) == Some(n)
  {
    var text := IntToString(n) + [unit] + " ago";
    assert text[..|text| - 5] == IntToString(n);
    ParseIntToString(n);
  }

  /** `hours` is the hour bucket `diff` falls in. */
  lemma HourBucket(diff: int)
    ensures var h := diff / MillisPerHour; h * MillisPerHour <= diff < (h + 1) * MillisPerHour
  {
    var h := diff / MillisPerHour;
    assert diff == h * MillisPerHour + diff % MillisPerHour;
  }

  /** Flooring hours and then days is flooring days. */
  lemma DaysFromHours(diff: int)
    ensures (diff / MillisPerHour) / 24 == diff / MillisPerDay
  {
    var h := diff / MillisPerHour;
    var r := diff % MillisPerHour;
    assert diff == h * MillisPerHour + r;
    var d := h / 24;
    var q := h % 24;
    assert h == d * 24 + q;
    assert diff == d * MillisPerDay + (q * MillisPerHour + r);
    assert 0 <= q * MillisPerHour + r < MillisPerDay;
  }

  /** Below one day the label counts the whole hours. */
  lemma TimeAgoHours(diff: int)
    requires diff < MillisPerDay
    ensures var n := diff / MillisPerHour;
      ParseAgo(TimeAgo(diff)) == Some((n, Hours)) && n * MillisPerHour <= diff < (n + 1) * MillisPerHour
  {
    var n := diff / MillisPerHour;
    HourBucket(diff);
    assert n < 24;
    assert TimeAgo(diff) == IntToString(n) + ['h'] + " ago";
    ReadBack(n, 'h');
  }

  /** From one day on the label counts the whole days, at least one. */
  lemma TimeAgoDays(diff: int)
    requires diff >= MillisPerDay
    ensures var n := diff / MillisPerDay;
      ParseAgo(TimeAgo(diff)) == Some((n, Days)) && n >= 1 && n * MillisPerDay <= diff < (n + 1) * MillisPerDay
  {
    var h := diff / MillisPerHour;
    var n := diff / MillisPerDay;
    HourBucket(diff);
    assert h >= 24;
    DaysFromHours(diff);
    assert diff == n * MillisPerDay + diff % MillisPerDay;
    assert n >= 1;
    assert TimeAgo(diff) == IntToString(n) + ['d'] + " ago";
    ReadBack(n, 'd');
  }

  /** The label names the hour or day bucket `diff` falls in: `n` hours
      with `n * 1h <= diff < (n + 1) * 1h` below one day, otherwise `n >= 1`
      days with `n * 1d <= diff < (n + 1) * 1d`. */
  lemma TimeAgoBuckets(diff: int)
    ensures diff < MillisPerDay ==> exists n ::
      ParseAgo(TimeAgo(diff)) == Some((n, Hours)) && n * MillisPerHour <= diff < (n + 1) * MillisPerHour
    ensures diff >= MillisPerDay ==> exists n ::
      ParseAgo(TimeAgo(diff)) == Some((n, Days)) && n >= 1 && n * MillisPerDay <= diff < (n + 1) * MillisPerDay
  {
    if diff < MillisPerDay {
      TimeAgoHours(diff);
    } else {
      TimeAgoDays(diff);
    }
  }

  // ---------------------------------------------------------------------
  // Initials
  // ---------------------------------------------------------------------

  /** `n[0]` of one piece; `join` writes `undefined` as nothing. */
  function FirstChar(word: string): string
  {
    if |word| == 0 then "" else [word[0]]
  }

  function FirstChars(words: seq<string>): string
  {
    if |words| == 0 then "" else FirstChar(words[0]) + FirstChars(words[1..])
  }

  /** `name.split(' ').map(n => n[0]).join('')`. */
  function Initials(name: string): string
  {
    FirstChars(Split(name, ' '))
  }

  /** The characters that start a word, read left to right: `atStart` says
      the previous character was a space or there was none. */
  function WordStarts(s: string, atStart: bool): string
  {
    if |s| == 0 then ""
    else if s[0] == ' ' then WordStarts(s[1..], true)
    else (if atStart then [s[0]] else "") + WordStarts(s[1..], false)
  }

  /** Inside a word nothing starts. */
  lemma {:induction false} InsideWord(w: string, rest: string)
    requires ' ' !in w
    ensures WordStarts(w + rest, false) == WordStarts(rest, false)
    decreases |w|
  {
    if |w| > 0 {
      assert w[0] in w;
      assert (w + rest)[0] == w[0];
      assert (w + rest)[1..] == w[1..] + rest;
      assert forall c :: c in w[1..] ==> c in w;
      InsideWord(w[1..], rest);
    } else {
      assert w + rest == rest;
    }
  }

  /** A word and the space after it contribute the word's first character. */
  lemma WordThenSpace(w: string, rest: string)
    requires ' ' !in w
    ensures WordStarts(w + [' '] + rest, true) == FirstChar(w) + WordStarts(rest, true)
  {
    if |w| > 0 {
      assert (w + [' '] + rest)[1..] == w[1..] + ([' '] + rest);
      InsideWord(w[1..], [' '] + rest);
      assert ([' '] + rest)[1..] == rest;
    } else {
      assert w + [' '] + rest == [' '] + rest;
    }
  }

  lemma LastWord(w: string)
    requires ' ' !in w
    ensures WordStarts(w, true) == FirstChar(w)
  {
    if |w| > 0 {
      InsideWord(w[1..], "");
      assert w[1..] + "" == w[1..];
    }
  }

  /** The initials are the characters that start a word, in order. */
  lemma {:induction false} InitialsAreWordStarts(name: string)
    ensures Initials(name) == WordStarts(name, true)
    decreases |name|
  {
    match IndexOfChar(name, ' ')
    case None =>
      assert Split(name, ' ') == [name];
      assert FirstChars([name]) == FirstChar(name) + FirstChars([]);
      LastWord(name);
    case Some(i) =>
      var w := name[..i];
      var rest := name[i + 1..];
      assert name == w + [' '] + rest;
      assert Split(name, ' ') == [w] + Split(rest, ' ');
      assert ([w] + Split(rest, ' '))[1..] == Split(rest, ' ');
      assert ' ' !in w;
      WordThenSpace(w, rest);
      InitialsAreWordStarts(rest);
  }

  /** The initials never contain a space and never outnumber the
      characters of the name. */
  lemma {:induction false} WordStartsShape(s: string, atStart: bool)
    ensures ' ' !in WordStarts(s, atStart)
    ensures |WordStarts(s, atStart)| <= |s|
    decreases |s|
  {
    if |s| > 0 {
      WordStartsShape(s[1..], s[0] == ' ');
    }
  }

  /** Two words give two initials. */
  lemma TwoWords(a: string, b: string)
    requires ' ' !in a && ' ' !in b
    ensures Initials(a + [' '] + b) == FirstChar(a) + FirstChar(b)
  {
    InitialsAreWordStarts(a + [' '] + b);
    WordThenSpace(a, b);
    LastWord(b);
  }

  /** The name of the user shown, "Oluwasegun Lawrence". */
  const UserName: string := "Oluwasegun" + " " + "Lawrence"

  /** The initials of the user shown. */
  lemma InitialsOfUser()
    ensures Initials(UserName) == "OL"
  {
    var first, last := "Oluwasegun", "Lawrence";
    assert ' ' !in first && ' ' !in last;
    TwoWords(first, last);
  }
}
