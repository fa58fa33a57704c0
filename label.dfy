/**
 * The combined clock label of src/lib/label.ts (the same class is also written
 * out inside src/extension.ts): a label showing the desktop's wall clock text,
 * an EM SPACE (U+2003), and the current UTC time in a user-chosen format.
 *
 * Reading the UTC clock and formatting a date are foreign calls: the instant
 * is passed in as `now`, and the formatting function is a value of type
 * `Formatter` that the label is created with.
 */
module ClockLabel {
  import opened Options

  /** A reading of the UTC clock. */
  type Instant = int

  /** Formats an instant with a strftime-style format string. */
  type Formatter = (Instant, string) -> string

  /** The separator between the wall clock and the UTC time. */
  const EmSpace: char := '\U{2003}'

  /** The UTC format a new label starts with. */
  const DefaultClockFormat: string := "%H:%M"

  /** The wall clock part of the text: a missing wall clock shows as nothing. */
  function WallText(wallClock: Option<string>): string {
    wallClock.GetOr("")
  }

  /** The text of a label whose wall clock is `wallClock` and whose UTC part reads `utcNow`. */
  function Render(wallClock: Option<string>, utcNow: string): (text: string)
    ensures |text| == |WallText(wallClock)| + 1 + |utcNow|
    ensures text[..|WallText(wallClock)|] == WallText(wallClock)
    ensures text[|WallText(wallClock)|] == EmSpace
    ensures text[|WallText(wallClock)| + 1..] == utcNow
  {
    WallText(wallClock) + [EmSpace] + utcNow
  }

  /** The index of the first `c` in `s`, if `s` holds one. */
  function IndexOf(s: string, c: char): (r: Option<nat>)
    ensures r.None? <==> c !in s
    ensures r.Some? ==> r.value < |s| && s[r.value] == c && c !in s[..r.value]
  {
    if s == [] then None
    else if s[0] == c then Some(0)
    else
      match IndexOf(s[1..], c)
      case None => None
      case Some(i) =>
        assert s[..i + 1] == [s[0]] + s[1..][..i];
        Some(i + 1)
  }

  /**
   * Takes a label text apart at its first separator into the wall clock part
   * and the UTC part; a text without a separator is not a label text.
   */
  function Split(text: string): (r: Option<(string, string)>)
    ensures r.None? <==> EmSpace !in text
    ensures r.Some? ==> EmSpace !in r.value.0 && text == r.value.0 + [EmSpace] + r.value.1
  {
    match IndexOf(text, EmSpace)
    case None => None
    case Some(i) =>
      assert text == text[..i] + [EmSpace] + text[i + 1..];
      Some((text[..i], text[i + 1..]))
  }

  /**
   * Every label text holds the separator right after the wall clock part, and
   * the two parts can be read back from it as long as the wall clock text
   * itself holds no EM SPACE (the UTC part may hold any characters).
   */
  lemma SplitRender(wallClock: Option<string>, utcNow: string)
    requires EmSpace !in WallText(wallClock)
    ensures Split(Render(wallClock, utcNow)) == Some((WallText(wallClock), utcNow))
  {
    var w, text := WallText(wallClock), Render(wallClock, utcNow);
    var r := Split(text);
    assert text[|w|] == EmSpace;
    assert EmSpace in text;
    var i :| IndexOf(text, EmSpace) == Some(i);
    assert text[..i] == w;
  }

  /**
   * The separator occurs once more than it does in the two parts together: a
   * wall clock text and a formatted time without EM SPACE give a text with
   * exactly one.
   */
  lemma SeparatorCount(wallClock: Option<string>, utcNow: string)
    ensures multiset(Render(wallClock, utcNow))[EmSpace]
         == multiset(WallText(wallClock))[EmSpace] + 1 + multiset(utcNow)[EmSpace]
  {
  }

  /** A missing wall clock renders as an empty prefix: the text starts with the separator. */
  lemma MissingWallClockStartsWithSeparator(utcNow: string)
    ensures Render(None, utcNow) == [EmSpace] + utcNow
    ensures Render(None, utcNow)[0] == EmSpace
  {
  }

  /**
   * A label combining the wall clock with a UTC clock.  Its `text` always shows
   * the current wall clock and the UTC time of its last update, formatted with
   * its current clock format.
   */
  class CombinedUtcClockLabel {
    var wallClock: Option<string>
    var clockFormat: string
    var text: string
    /** The instant the UTC clock was last read, at the last update. */
    ghost var shownAt: Instant
    const format: Formatter

    ghost predicate Valid()
      reads this
    {
      text == Render(wallClock, format(shownAt, clockFormat))
    }

    constructor(format: Formatter, now: Instant)
      ensures Valid()
      ensures this.format == format
      ensures wallClock == None && clockFormat == DefaultClockFormat
      ensures shownAt == now
    {
      this.format := format;
      wallClock := None;
      clockFormat := DefaultClockFormat;
      new;
      UpdateClock(now);
    }

    /** The wall clock text to show. */
    method GetWallClock() returns (r: Option<string>)
      ensures r == wallClock
    {
      r := wallClock;
    }

    method SetWallClock(value: Option<string>, now: Instant)
      modifies this
      ensures Valid()
      ensures wallClock == value && clockFormat == old(clockFormat) && shownAt == now
    {
      wallClock := value;
      UpdateClock(now);
    }

    /** The clock format for the UTC part. */
    method GetClockFormat() returns (r: string)
      ensures r == clockFormat
    {
      r := clockFormat;
    }

    method SetClockFormat(value: string, now: Instant)
      modifies this
      ensures Valid()
      ensures clockFormat == value && wallClock == old(wallClock) && shownAt == now
    {
      clockFormat := value;
      UpdateClock(now);
    }

    /** Reads the UTC clock and shows it beside the wall clock. */
    method UpdateClock(now: Instant)
      modifies this`text, this`shownAt
      ensures Valid() && shownAt == now
    {
      var utcNow := format(now, clockFormat);
      var wall := wallClock.GetOr("");
      text := wall + [EmSpace] + utcNow;
      shownAt := now;
    }
  }
}
