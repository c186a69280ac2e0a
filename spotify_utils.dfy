/**
 * `spotify.util.SpotifyUtils`: the helpers on lists, URIs, durations, images
 * and releases that the services and the call executor use.
 */
module SpotifyUtils {
  import opened Lang
  import opened SpotifyObjects

  const EP_SONG_COUNT_THRESHOLD: int := 5
  const EP_DURATION_THRESHOLD: int := 20 * 60 * 1000
  const EP_SONG_COUNT_THRESHOLD_LESSER: int := 3
  const EP_DURATION_THRESHOLD_LESSER: int := 10 * 60 * 1000

  // ---------------------------------------------------------------------------
  // Scopes and null strings

  /** `buildScopes`: the scopes joined by single spaces. */
  function BuildScopes(scopes: seq<string>): string
  {
    Join(" ", scopes)
  }

  /**
   * Splitting the joined scopes on spaces, as the credential refresh does with
   * the granted scope string, gives the scopes back.
   */
  lemma BuildScopesSplit(scopes: seq<string>)
    requires |scopes| > 0 && scopes[|scopes| - 1] != ""
    requires forall i :: 0 <= i < |scopes| ==> ' ' !in scopes[i]
    ensures JavaSplit(BuildScopes(scopes), ' ') == scopes
  {
    SplitJoin(scopes, ' ');
    if |scopes| == 1 {
      assert BuildScopes(scopes) == scopes[0];
    }
  }

  /** `isNullString`: null, or the word "null" in any letter case. */
  predicate IsNullString(s: Option<string>)
  {
    s.None? || EqualsIgnoreAsciiCase(s.value, "null")
  }

  /** The sixteen spellings of "null" that `isNullString` accepts, letter by letter. */
  lemma IsNullStringSpellings(s: string)
    ensures IsNullString(Some(s)) <==>
      |s| == 4 && s[0] in "nN" && s[1] in "uU" && s[2] in "lL" && s[3] in "lL"
  {
    if |s| == 4 && s[0] in "nN" && s[1] in "uU" && s[2] in "lL" && s[3] in "lL" {
      assert forall i :: 0 <= i < 4 ==> FoldCase(s[i]) == FoldCase("null"[i]);
    }
    if IsNullString(Some(s)) {
      assert FoldCase(s[0]) == 'n' && FoldCase(s[1]) == 'u';
      assert FoldCase(s[2]) == 'l' && FoldCase(s[3]) == 'l';
    }
  }

  // ---------------------------------------------------------------------------
  // Lists

  /** What `addToListIfNotBlank` appends: the array's items, nothing for null. */
  function ItemsOf<T>(source: Option<seq<T>>): (r: seq<T>)
    ensures source.Some? ==> r == source.value
    ensures source.None? ==> r == []
  {
    if source.Some? then source.value else []
  }

  /**
   * `addToListIfNotBlank`: appends the items of a non-null, non-empty array
   * in order, and leaves the list alone otherwise.
   */
  method AddToListIfNotBlank<T>(source: Option<seq<T>>, target: JavaList<T>)
    modifies target
    ensures source.Some? && |source.value| > 0 ==> target.elements == old(target.elements) + source.value
    ensures source.None? || |source.value| == 0 ==> target.elements == old(target.elements)
    ensures target.elements == old(target.elements) + ItemsOf(source)
  {
    if source.Some? && |source.value| > 0 {
      target.AddAll(source.value);
    }
  }

  /** The consecutive slices of `xs`, each `size` long except a shorter last one. */
  function Partition<T>(xs: seq<T>, size: nat): seq<seq<T>>
    requires size > 0
    decreases |xs|
  {
    if |xs| == 0 then []
    else if |xs| <= size then [xs]
    else [xs[..size]] + Partition(xs[size..], size)
  }

  /** The parts put back together are the input. */
  lemma {:induction false} PartitionFlatten<T>(xs: seq<T>, size: nat)
    requires size > 0
    ensures Flatten(Partition(xs, size)) == xs
    decreases |xs|
  {
    if |xs| > size {
      PartitionFlatten(xs[size..], size);
      assert xs == xs[..size] + xs[size..];
    }
  }

  /**
   * Every part but the last has exactly `size` elements, the last between 1
   * and `size`, and there are ceil(n / size) parts: the least count whose
   * multiple of `size` reaches n.
   */
  lemma {:induction false} PartitionSizes<T>(xs: seq<T>, size: nat)
    requires size > 0
    ensures var parts := Partition(xs, size);
      && (|parts| - 1) * size < |xs| <= |parts| * size
      && (forall i :: 0 <= i < |parts| - 1 ==> |parts[i]| == size)
      && (|parts| > 0 ==> 1 <= |parts[|parts| - 1]| <= size)
    decreases |xs|
  {
    if |xs| > size {
      PartitionSizes(xs[size..], size);
      var rest := Partition(xs[size..], size);
      assert Partition(xs, size) == [xs[..size]] + rest;
      assert (|rest| + 1) * size == |rest| * size + size;
    }
  }

  /** `partitionList`, for a positive partition size. */
  method PartitionList<T>(inputList: seq<T>, partitionSize: nat) returns (partitions: seq<seq<T>>)
    requires partitionSize > 0
    ensures partitions == Partition(inputList, partitionSize)
  {
    partitions := [];
    var i := 0;
    while i < |inputList|
      invariant 0 <= i
      invariant i < |inputList| ==> partitions + Partition(inputList[i..], partitionSize) == Partition(inputList, partitionSize)
      invariant i >= |inputList| ==> partitions == Partition(inputList, partitionSize)
      decreases |inputList| - i
    {
      var upperBound := if |inputList| < i + partitionSize then |inputList| else i + partitionSize;
      var subList := inputList[i..upperBound];
      ghost var tail := Partition(inputList[i..], partitionSize);
      if i + partitionSize < |inputList| {
        assert inputList[i..][partitionSize..] == inputList[i + partitionSize..];
        assert inputList[i..][..partitionSize] == subList;
        assert tail == [subList] + Partition(inputList[i + partitionSize..], partitionSize);
      } else {
        assert subList == inputList[i..];
        assert tail == [subList];
      }
      partitions := partitions + [subList];
      i := i + partitionSize;
    }
  }

  /** `createAlbumGroupToListOfTMap`: every album group mapped to an empty list. */
  method CreateAlbumGroupToListOfTMap<T>() returns (albumGroupToList: map<AlbumGroup, seq<T>>)
    ensures forall g: AlbumGroup :: g in albumGroupToList && albumGroupToList[g] == []
  {
    albumGroupToList := map[];
    for k := 0 to |ALBUM_GROUPS|
      invariant forall j :: 0 <= j < k ==> ALBUM_GROUPS[j] in albumGroupToList
      invariant forall g :: g in albumGroupToList ==> albumGroupToList[g] == []
    {
      albumGroupToList := albumGroupToList[ALBUM_GROUPS[k] := []];
    }
    assert ALBUM_GROUPS[0] in albumGroupToList && ALBUM_GROUPS[1] in albumGroupToList;
    assert ALBUM_GROUPS[2] in albumGroupToList && ALBUM_GROUPS[3] in albumGroupToList;
    forall g: AlbumGroup
      ensures g in albumGroupToList
    {
      match g
      case ALBUM => assert g == ALBUM_GROUPS[0];
      case APPEARS_ON => assert g == ALBUM_GROUPS[1];
      case COMPILATION => assert g == ALBUM_GROUPS[2];
      case SINGLE => assert g == ALBUM_GROUPS[3];
    }
  }

  // ---------------------------------------------------------------------------
  // URIs and releases

  /**
   * `getIdFromUri`: the last piece of `uri.split(":")`. A string made of
   * colons only splits into no piece at all, and the array access fails.
   */
  function GetIdFromUri(uri: string): (r: Result<string, Exception>)
    ensures r.Failure? ==> r.error == IndexOutOfBounds
  {
    var split := JavaSplit(uri, ':');
    if |split| == 0 then Failure(IndexOutOfBounds) else Success(split[|split| - 1])
  }

  /** A URI without a colon is its own id. */
  lemma GetIdFromUriWithoutColon(uri: string)
    requires ':' !in uri
    ensures GetIdFromUri(uri) == Success(uri)
  {
  }

  /** The id is the text after the last colon, when that text is not empty. */
  lemma GetIdFromUriAfterLastColon(prefix: string, id: string)
    requires ':' !in id && id != ""
    ensures GetIdFromUri(prefix + ":" + id) == Success(id)
  {
    var uri := prefix + ":" + id;
    assert uri == prefix + [':'] + id;
    assert uri[|prefix|] == ':';
    SplitAllSeparated(prefix, ':', id);
    SplitAllNoSeparator(id, ':');
    var pieces := SplitAll(uri, ':');
    assert pieces[|pieces| - 1] == id;
    assert DropTrailingEmpty(pieces) == pieces;
  }

  lemma {:induction false} SplitAllOnlySeparators(s: string, c: char)
    requires forall i :: 0 <= i < |s| ==> s[i] == c
    ensures forall i :: 0 <= i < |SplitAll(s, c)| ==> SplitAll(s, c)[i] == ""
  {
    if |s| > 0 {
      assert s[0] == c;
      assert forall i :: 0 <= i < |s[1..]| ==> s[1..][i] == s[i + 1];
      SplitAllOnlySeparators(s[1..], c);
      var rest := SplitAll(s[1..], c);
      assert SplitAll(s, c) == [""] + rest;
      forall i | 0 <= i < |SplitAll(s, c)|
        ensures SplitAll(s, c)[i] == ""
      {
        if i > 0 {
          assert SplitAll(s, c)[i] == rest[i - 1];
        }
      }
    }
  }

  lemma {:induction false} DropAllEmpty(xs: seq<string>)
    requires forall i :: 0 <= i < |xs| ==> xs[i] == ""
    ensures DropTrailingEmpty(xs) == []
    decreases |xs|
  {
    if |xs| > 0 {
      DropAllEmpty(xs[..|xs| - 1]);
    }
  }

  /** A non-empty string of colons only has no id: the array is empty. */
  lemma GetIdFromUriOnlyColons(uri: string)
    requires |uri| > 0 && forall i :: 0 <= i < |uri| ==> uri[i] == ':'
    ensures GetIdFromUri(uri) == Failure(IndexOutOfBounds)
  {
    assert uri[0] == ':';
    SplitAllOnlySeparators(uri, ':');
    DropAllEmpty(SplitAll(uri, ':'));
  }

  /**
   * `findReleaseYear`: the first four characters of the release date, null
   * without a date; a date shorter than four characters makes `substring` fail.
   */
  function FindReleaseYear(releaseDate: Option<string>): (r: Result<Option<string>, Exception>)
    ensures releaseDate.None? <==> r == Success(None)
    ensures r.Success? && r.value.Some? ==>
      releaseDate.Some? && |releaseDate.value| >= 4 && r.value.value == releaseDate.value[..4]
    ensures r.Failure? <==> releaseDate.Some? && |releaseDate.value| < 4
  {
    if releaseDate.Some? then
      if |releaseDate.value| < 4 then Failure(IndexOutOfBounds) else Success(Some(releaseDate.value[..4]))
    else Success(None)
  }

  /** `findReleaseYear(Album)` and `findReleaseYear(AlbumSimplified)`. */
  function FindAlbumReleaseYear(album: Album): Result<Option<string>, Exception>
  {
    FindReleaseYear(album.releaseDate)
  }

  /** `findReleaseYear(Track)`: the release year of the track's album. */
  function FindTrackReleaseYear(track: Track): Result<Option<string>, Exception>
  {
    FindAlbumReleaseYear(track.album)
  }

  /** An ISO date `yyyy-mm-dd` yields its year. */
  lemma ReleaseYearOfIsoDate(track: Track, year: string, rest: string)
    requires |year| == 4 && track.album.releaseDate == Some(year + "-" + rest)
    ensures FindTrackReleaseYear(track) == Success(Some(year))
  {
    assert (year + "-" + rest)[..4] == year;
  }

  /** `getLastArtistName`: the name of the album's last artist. */
  function GetLastArtistName(album: Album): (r: Result<Option<string>, Exception>)
    ensures |album.artists| == 0 <==> r == Failure(IndexOutOfBounds)
    ensures r.Success? ==> r.value == album.artists[|album.artists| - 1].name
  {
    if |album.artists| == 0 then Failure(IndexOutOfBounds)
    else Success(album.artists[|album.artists| - 1].name)
  }

  /** `anyArtistMatches`: some artist of the album has the given non-null id. */
  method AnyArtistMatches(album: Album, artistId: Option<string>) returns (r: bool)
    ensures r <==> exists i :: 0 <= i < |album.artists| && album.artists[i].id.Some? && album.artists[i].id == artistId
  {
    for k := 0 to |album.artists|
      invariant forall i :: 0 <= i < k ==> !(album.artists[i].id.Some? && album.artists[i].id == artistId)
    {
      var artist := album.artists[k];
      if artist.id.Some? && artist.id == artistId {
        return true;
      }
    }
    return false;
  }

  /**
   * The numeric part of `isExtendedPlay`. The title checks are regular
   * expressions and enter as the booleans `titleMarksEp` (the EP pattern
   * matches the album title) and `noTitleTrack` (no track has the album's
   * stripped title). The total duration is an `int` sum.
   */
  function IsExtendedPlay(titleMarksEp: bool, durationsMs: seq<int>, noTitleTrack: bool): bool
  {
    var trackCount := |durationsMs|;
    var totalDurationMs := WrapInt(Sum(durationsMs));
    if titleMarksEp then true
    else if trackCount >= EP_SONG_COUNT_THRESHOLD || totalDurationMs >= EP_DURATION_THRESHOLD then true
    else if trackCount >= EP_SONG_COUNT_THRESHOLD_LESSER && totalDurationMs >= EP_DURATION_THRESHOLD_LESSER then noTitleTrack
    else false
  }

  /**
   * Five or more tracks make an EP whatever the durations; so does a total
   * of twenty minutes or more that does not overflow an `int`.
   */
  lemma ExtendedPlayByNumbers(titleMarksEp: bool, durationsMs: seq<int>, noTitleTrack: bool)
    requires |durationsMs| >= 5 || (IsInt(Sum(durationsMs)) && Sum(durationsMs) >= 20 * 60 * 1000)
    ensures IsExtendedPlay(titleMarksEp, durationsMs, noTitleTrack)
  {
  }

  /**
   * Without the title marker, a release of fewer than three tracks, or of
   * fewer than five tracks and under ten minutes, is no EP.
   */
  lemma ShortReleaseIsNoExtendedPlay(durationsMs: seq<int>, noTitleTrack: bool)
    requires IsInt(Sum(durationsMs))
    requires (|durationsMs| < 3 && Sum(durationsMs) < 20 * 60 * 1000)
          || (|durationsMs| < 5 && Sum(durationsMs) < 10 * 60 * 1000)
    ensures !IsExtendedPlay(false, durationsMs, noTitleTrack)
  {
  }

  /** Between the two thresholds the title-track check decides. */
  lemma ExtendedPlayByTitleTrack(durationsMs: seq<int>, noTitleTrack: bool)
    requires IsInt(Sum(durationsMs))
    requires 3 <= |durationsMs| < 5 && 10 * 60 * 1000 <= Sum(durationsMs) < 20 * 60 * 1000
    ensures IsExtendedPlay(false, durationsMs, noTitleTrack) == noTitleTrack
  {
  }

  // ---------------------------------------------------------------------------
  // Durations

  /** `Duration.ofMillis(ms).getSeconds()`: the milliseconds floored to seconds. */
  function DurationSeconds(ms: int): int
  {
    ms / 1000
  }

  /** `Duration.toHours()`. */
  function ToHours(ms: int): int
  {
    TruncDiv(DurationSeconds(ms), 3600)
  }

  /** `Duration.toMinutesPart()`. */
  function ToMinutesPart(ms: int): int
  {
    TruncMod(TruncDiv(DurationSeconds(ms), 60), 60)
  }

  /** `Duration.toSecondsPart()`. */
  function ToSecondsPart(ms: int): int
  {
    TruncMod(DurationSeconds(ms), 60)
  }

  /** For a non-negative duration the three parts are a clock reading of its seconds. */
  lemma ClockParts(ms: int)
    requires ms >= 0
    ensures 0 <= ToMinutesPart(ms) < 60 && 0 <= ToSecondsPart(ms) < 60 && ToHours(ms) >= 0
    ensures ToHours(ms) * 3600 + ToMinutesPart(ms) * 60 + ToSecondsPart(ms) == ms / 1000
  {
    var s := ms / 1000;
    assert s / 60 / 60 == s / 3600;
  }

  /** `%02d`: a single digit gets a leading zero; anything else prints as `%d`. */
  function Pad2(n: int): string
  {
    if 0 <= n < 10 then "0" + IntToString(n) else IntToString(n)
  }

  /** `formatTime`: `h:mm:ss` from one hour on, `m:ss` below. */
  function FormatTime(timeInMs: int): string
  {
    var hours := ToHours(timeInMs);
    var minutesPart := ToMinutesPart(timeInMs);
    var secondsPart := ToSecondsPart(timeInMs);
    if hours > 0 then IntToString(hours) + ":" + Pad2(minutesPart) + ":" + Pad2(secondsPart)
    else IntToString(minutesPart) + ":" + Pad2(secondsPart)
  }

  /** A negative duration is printed with the sign of each Java remainder. */
  lemma FormatTimeNegative()
    ensures FormatTime(-61000) == "-1:-1"
  {
    assert DurationSeconds(-61000) == -61;
    assert TruncDiv(-61, 3600) == 0 && TruncDiv(-61, 60) == -1;
    assert ToMinutesPart(-61000) == -1 && ToSecondsPart(-61000) == -1;
    assert NatToString(1) == "1";
    assert IntToString(-1) == "-1" && Pad2(-1) == "-1";
  }

  // Reading a formatted duration back.

  /** The value of colon-separated digit groups in base 60, if each is a number. */
  function SexagesimalValue(fields: seq<string>): Option<nat>
  {
    if |fields| == 0 then Some(0)
    else
      var last := fields[|fields| - 1];
      var high := SexagesimalValue(fields[..|fields| - 1]);
      if last == "" || !IsDigits(last) || high.None? then None
      else Some(high.value * 60 + DigitsValue(last))
  }

  /** The number a clock reading `h:mm:ss`, `m:ss` or `h:mm` stands for. */
  function ClockValue(text: string): Option<nat>
  {
    SexagesimalValue(SplitAll(text, ':'))
  }

  lemma Pad2Digits(n: nat)
    requires n < 60
    ensures |Pad2(n)| == 2 && IsDigits(Pad2(n)) && DigitsValue(Pad2(n)) == n && ':' !in Pad2(n)
  {
    var p := Pad2(n);
    if n < 10 {
      assert p == ['0', Digit(n)];
      assert p[..1] == ['0'];
      assert ['0'][..0] == [];
      assert DigitsValue(['0']) == 0;
    } else {
      assert p == NatToString(n) == NatToString(n / 10) + [Digit(n % 10)];
      DigitsOfNat(n);
    }
  }

  lemma NatDigits(n: nat)
    ensures NatToString(n) != "" && IsDigits(NatToString(n)) && DigitsValue(NatToString(n)) == n
    ensures ':' !in NatToString(n)
  {
    DigitsOfNat(n);
  }

  lemma SexagesimalSnoc(fields: seq<string>, last: string)
    requires last != "" && IsDigits(last) && SexagesimalValue(fields).Some?
    ensures SexagesimalValue(fields + [last]) == Some(SexagesimalValue(fields).value * 60 + DigitsValue(last))
  {
    assert (fields + [last])[..|fields|] == fields;
  }

  lemma ClockValueTwo(a: nat, b: nat)
    requires b < 60
    ensures SplitAll(NatToString(a) + ":" + Pad2(b), ':') == [NatToString(a), Pad2(b)]
    ensures ClockValue(NatToString(a) + ":" + Pad2(b)) == Some(a * 60 + b)
  {
    var A, B := NatToString(a), Pad2(b);
    NatDigits(a);
    Pad2Digits(b);
    SplitAllSeparated(A, ':', B);
    assert A + ":" + B == A + [':'] + B;
    SplitAllNoSeparator(A, ':');
    SplitAllNoSeparator(B, ':');
    assert SplitAll(A + ":" + B, ':') == [A] + [B];
    SexagesimalSnoc([], A);
    assert [] + [A] == [A];
    SexagesimalSnoc([A], B);
  }

  lemma ClockValueThree(a: nat, b: nat, c: nat)
    requires b < 60 && c < 60
    ensures SplitAll(NatToString(a) + ":" + Pad2(b) + ":" + Pad2(c), ':') == [NatToString(a), Pad2(b), Pad2(c)]
    ensures ClockValue(NatToString(a) + ":" + Pad2(b) + ":" + Pad2(c)) == Some((a * 60 + b) * 60 + c)
  {
    var head := NatToString(a) + ":" + Pad2(b);
    ClockValueTwo(a, b);
    Pad2Digits(c);
    assert head + ":" + Pad2(c) == head + [':'] + Pad2(c);
    SplitAllSeparated(head, ':', Pad2(c));
    SplitAllNoSeparator(Pad2(c), ':');
    SexagesimalSnoc(SplitAll(head, ':'), Pad2(c));
  }

  /**
   * Reading the formatted duration back as a clock gives the whole seconds
   * of any non-negative duration: nothing is lost or misplaced. The text has
   * three fields (`h:mm:ss`) exactly from one hour on and two (`m:ss`)
   * below, and every field after the first has two digits.
   */
  lemma FormatTimeReadsBack(timeInMs: int)
    requires timeInMs >= 0
    ensures ClockValue(FormatTime(timeInMs)) == Some(timeInMs / 1000)
    ensures ToHours(timeInMs) > 0 <==> timeInMs >= 3600 * 1000
    ensures var fields := SplitAll(FormatTime(timeInMs), ':');
      |fields| == (if timeInMs >= 3600 * 1000 then 3 else 2)
      && forall i :: 1 <= i < |fields| ==> |fields[i]| == 2
  {
    ClockParts(timeInMs);
    var h, m, s := ToHours(timeInMs), ToMinutesPart(timeInMs), ToSecondsPart(timeInMs);
    var total := timeInMs / 1000;
    assert h * 3600 + m * 60 + s == total;
    if h > 0 {
      ClockValueThree(h, m, s);
      Pad2Digits(m);
      Pad2Digits(s);
      assert (h * 60 + m) * 60 + s == h * 3600 + m * 60 + s;
      assert FormatTime(timeInMs) == NatToString(h) + ":" + Pad2(m) + ":" + Pad2(s);
      assert total >= 3600;
    } else {
      ClockValueTwo(m, s);
      Pad2Digits(s);
      assert h == 0 && total == m * 60 + s && total < 3600;
      assert FormatTime(timeInMs) == NatToString(m) + ":" + Pad2(s);
    }
  }

  // ---------------------------------------------------------------------------
  // Images

  /** The `int` product `width * height` the image loops compare. */
  function Area(img: Image): (a: int)
    ensures IsInt(a)
    ensures IsInt(img.width * img.height) ==> a == img.width * img.height
  {
    WrapInt(img.width * img.height)
  }

  /** The index the largest-image loop settles on: the first of maximal area. */
  function LargestIndex(images: seq<Image>): (k: nat)
    requires |images| > 0
    ensures k < |images|
    ensures forall j :: 0 <= j < |images| ==> Area(images[j]) <= Area(images[k])
    ensures forall j :: 0 <= j < k ==> Area(images[j]) < Area(images[k])
  {
    if |images| == 1 then 0
    else
      var k := LargestIndex(images[..|images| - 1]);
      assert forall j :: 0 <= j < |images| - 1 ==> images[..|images| - 1][j] == images[j];
      if Area(images[|images| - 1]) > Area(images[k]) then |images| - 1 else k
  }

  /** The index the smallest-image loop settles on: the first of minimal area. */
  function SmallestIndex(images: seq<Image>): (k: nat)
    requires |images| > 0
    ensures k < |images|
    ensures forall j :: 0 <= j < |images| ==> Area(images[k]) <= Area(images[j])
    ensures forall j :: 0 <= j < k ==> Area(images[k]) < Area(images[j])
  {
    if |images| == 1 then 0
    else
      var k := SmallestIndex(images[..|images| - 1]);
      assert forall j :: 0 <= j < |images| - 1 ==> images[..|images| - 1][j] == images[j];
      if Area(images[|images| - 1]) < Area(images[k]) then |images| - 1 else k
  }

  /** `findLargestImage`: the URL of the first image of maximal area; null for no images. */
  method FindLargestImage(images: Option<seq<Image>>) returns (url: Option<string>)
    ensures images.None? || |images.value| == 0 ==> url == None
    ensures images.Some? && |images.value| > 0 ==> url == images.value[LargestIndex(images.value)].url
  {
    if images.Some? {
      var imgs := images.value;
      var largest: Option<Image> := None;
      for i := 0 to |imgs|
        invariant i == 0 <==> largest.None?
        invariant i > 0 ==> largest == Some(imgs[LargestIndex(imgs[..i])])
      {
        var img := imgs[i];
        if i > 0 {
          assert imgs[..i + 1][..i] == imgs[..i];
        }
        if largest.None? || Area(img) > Area(largest.value) {
          largest := Some(img);
        }
        assert imgs[..i + 1][i] == img;
      }
      assert imgs[..|imgs|] == imgs;
      return if largest.Some? then largest.value.url else None;
    }
    return None;
  }

  /** `findSmallestImage`: the URL of the first image of minimal area; null for no images. */
  method FindSmallestImage(images: Option<seq<Image>>) returns (url: Option<string>)
    ensures images.None? || |images.value| == 0 ==> url == None
    ensures images.Some? && |images.value| > 0 ==> url == images.value[SmallestIndex(images.value)].url
  {
    if images.Some? {
      var imgs := images.value;
      var smallest: Option<Image> := None;
      for i := 0 to |imgs|
        invariant i == 0 <==> smallest.None?
        invariant i > 0 ==> smallest == Some(imgs[SmallestIndex(imgs[..i])])
      {
        var img := imgs[i];
        if i > 0 {
          assert imgs[..i + 1][..i] == imgs[..i];
        }
        if smallest.None? || Area(img) < Area(smallest.value) {
          smallest := Some(img);
        }
        assert imgs[..i + 1][i] == img;
      }
      assert imgs[..|imgs|] == imgs;
      return if smallest.Some? then smallest.value.url else None;
    }
    return None;
  }
}
