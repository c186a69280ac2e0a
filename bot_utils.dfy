/**
 * `spotify.util.BotUtils`, the older helper class. Its `getIdFromUri`,
 * `findLargestImage`, `findSmallestImage`, `addToListIfNotBlank`,
 * `getLastArtistName`, `anyArtistMatches` and `findReleaseYear(Track)` have
 * the same bodies as their `SpotifyUtils` namesakes and are modelled there.
 * What is modelled here is what differs: the in-place null filters and the
 * `h:mm` duration format.
 */
module BotUtils {
  import opened Lang
  import SpotifyUtils

  /** The test `removeNullStrings` removes by: null, or "null" in any case. */
  predicate DropsAsNullString(e: Option<string>)
  {
    SpotifyUtils.IsNullString(e)
  }

  /** `removeNullStrings(collection)`. */
  method RemoveNullStrings(collection: JavaList<Option<string>>)
    modifies collection
    ensures collection.elements == RemoveWhere(old(collection.elements), DropsAsNullString)
  {
    collection.RemoveIf(DropsAsNullString);
  }

  /** The test `removeNulls` removes by: `Objects::isNull`. */
  predicate IsNull<T>(e: Option<T>)
  {
    e.None?
  }

  /** `removeNulls(collection)`. */
  method RemoveNulls<T>(collection: JavaList<Option<T>>)
    modifies collection
    ensures collection.elements == RemoveWhere(old(collection.elements), IsNull)
  {
    collection.RemoveIf(IsNull);
  }

  /**
   * After `removeNullStrings` no element is null or "null"; every other
   * string occurs exactly as often as before; and the survivors keep their
   * order, because filtering a concatenation filters each part.
   */
  lemma NullStringsRemoved(xs: seq<Option<string>>, x: Option<string>)
    ensures forall i :: 0 <= i < |RemoveWhere(xs, DropsAsNullString)| ==>
      RemoveWhere(xs, DropsAsNullString)[i].Some? && !SpotifyUtils.IsNullString(RemoveWhere(xs, DropsAsNullString)[i])
    ensures multiset(RemoveWhere(xs, DropsAsNullString))[x] ==
      if x.None? || EqualsIgnoreAsciiCase(x.value, "null") then 0 else multiset(xs)[x]
  {
    RemoveWhereCounts(xs, DropsAsNullString, x);
  }

  /** A list without null strings is left as it is. */
  lemma {:induction false} NoNullStringsUnchanged(xs: seq<Option<string>>)
    requires forall i :: 0 <= i < |xs| ==> !SpotifyUtils.IsNullString(xs[i])
    ensures RemoveWhere(xs, DropsAsNullString) == xs
  {
    if |xs| > 0 {
      NoNullStringsUnchanged(xs[1..]);
    }
  }

  /** After `removeNulls` no element is null and every value keeps its count. */
  lemma NullsRemoved<T>(xs: seq<Option<T>>, v: T)
    ensures forall i :: 0 <= i < |RemoveWhere(xs, IsNull)| ==> RemoveWhere(xs, IsNull)[i].Some?
    ensures multiset(RemoveWhere(xs, IsNull))[Some(v)] == multiset(xs)[Some(v)]
    ensures multiset(RemoveWhere(xs, IsNull))[None] == 0
  {
    RemoveWhereCounts(xs, IsNull, Some(v));
    RemoveWhereCounts(xs, IsNull, None);
  }

  /** The present values of a list, in order. */
  function Values<T>(xs: seq<Option<T>>): (r: seq<T>)
    ensures |r| <= |xs|
  {
    if |xs| == 0 then [] else (if xs[0].Some? then [xs[0].value] else []) + Values(xs[1..])
  }

  /** `removeNulls` keeps exactly the present values, in their order. */
  lemma {:induction false} NullsRemovedInOrder<T>(xs: seq<Option<T>>)
    ensures |RemoveWhere(xs, IsNull)| == |Values(xs)|
    ensures forall i :: 0 <= i < |Values(xs)| ==> RemoveWhere(xs, IsNull)[i] == Some(Values(xs)[i])
  {
    if |xs| > 0 {
      NullsRemovedInOrder(xs[1..]);
      var r, v := RemoveWhere(xs[1..], IsNull), Values(xs[1..]);
      if xs[0].Some? {
        assert RemoveWhere(xs, IsNull) == [xs[0]] + r;
        assert Values(xs) == [xs[0].value] + v;
      }
    }
  }

  /** `formatTime`: `h:mm` from one hour on, `m:ss` below, each part as `%d` or `%02d`. */
  function FormatTime(timeInMs: int): string
  {
    var hours := SpotifyUtils.ToHours(timeInMs);
    var minutesPart := SpotifyUtils.ToMinutesPart(timeInMs);
    if hours > 0 then IntToString(hours) + ":" + SpotifyUtils.Pad2(minutesPart)
    else
      var secondsPart := SpotifyUtils.ToSecondsPart(timeInMs);
      IntToString(minutesPart) + ":" + SpotifyUtils.Pad2(secondsPart)
  }

  /**
   * Read back, the `h:mm` form gives the whole minutes of a duration of an
   * hour or more, and the `m:ss` form the whole seconds of a shorter one.
   * Either way the text has two fields, the second of two digits.
   */
  lemma FormatTimeReadsBack(timeInMs: int)
    requires timeInMs >= 0
    ensures var fields := SplitAll(FormatTime(timeInMs), ':');
      |fields| == 2 && |fields[1]| == 2
    ensures timeInMs >= 3600 * 1000 ==>
      exists minutes: nat :: SpotifyUtils.ClockValue(FormatTime(timeInMs)) == Some(minutes)
        && minutes * 60 <= timeInMs / 1000 < minutes * 60 + 60
    ensures timeInMs < 3600 * 1000 ==> SpotifyUtils.ClockValue(FormatTime(timeInMs)) == Some(timeInMs / 1000)
  {
    SpotifyUtils.ClockParts(timeInMs);
    SpotifyUtils.FormatTimeReadsBack(timeInMs);
    var h, m, s := SpotifyUtils.ToHours(timeInMs), SpotifyUtils.ToMinutesPart(timeInMs), SpotifyUtils.ToSecondsPart(timeInMs);
    if h > 0 {
      SpotifyUtils.ClockValueTwo(h, m);
      SpotifyUtils.Pad2Digits(m);
      var minutes: nat := h * 60 + m;
      assert minutes * 60 == h * 3600 + m * 60;
      assert SpotifyUtils.ClockValue(FormatTime(timeInMs)) == Some(minutes);
    } else {
      SpotifyUtils.ClockValueTwo(m, s);
      SpotifyUtils.Pad2Digits(s);
    }
  }

  /**
   * The two `formatTime` versions agree below one hour; above it this one
   * is the other's output without its seconds.
   */
  lemma FormatTimeDropsSeconds(timeInMs: int)
    ensures SpotifyUtils.ToHours(timeInMs) > 0 ==>
      SpotifyUtils.FormatTime(timeInMs) == FormatTime(timeInMs) + ":" + SpotifyUtils.Pad2(SpotifyUtils.ToSecondsPart(timeInMs))
    ensures SpotifyUtils.ToHours(timeInMs) <= 0 ==> SpotifyUtils.FormatTime(timeInMs) == FormatTime(timeInMs)
  {
  }
}
