/**
 * `spotify.services.PlaylistService`: adding tracks to a playlist, removing
 * items in batches of 100, and uploading a cover image.
 *
 * Each Web API request the service builds is logged; `SpotifyCall.execute`
 * on it is a function from the request to the exception it ends with, if
 * any. `SpotifyUtils.toBase64Image`, which downloads the image, is a
 * function from the URL to the encoding or null.
 */
module Playlists {
  import opened Lang
  import opened SpotifyObjects
  import SpotifyUtils

  const TRACK_URI_PREFIX: string := "spotify:track:"
  const PLAYLIST_INTERACTION_LIMIT: nat := 100

  /** The requests this service builds, with the payload each carries. */
  datatype PlaylistRequest =
    | AddItems(playlistId: Option<string>, uris: seq<string>, position: Option<int>)
    | RemoveItems(playlistId: Option<string>, tracks: seq<Option<string>>)
    | UploadCoverImage(playlistId: Option<string>, imageData: string)

  type Executor = PlaylistRequest -> Option<Exception>

  /** Requests sent in order until one throws. */
  datatype Issued = Issued(sent: seq<PlaylistRequest>, thrown: Option<Exception>)

  /** A loop of `execute` calls: every request is sent until the first that throws, which ends the loop. */
  function Issue(requests: seq<PlaylistRequest>, execute: Executor): Issued
  {
    if |requests| == 0 then Issued([], None)
    else
      var thrown := execute(requests[0]);
      if thrown.Some? then Issued([requests[0]], thrown)
      else
        var rest := Issue(requests[1..], execute);
        Issued([requests[0]] + rest.sent, rest.thrown)
  }

  /**
   * The loop sends all requests when none throws; otherwise it sends a
   * prefix of them, ending at the one that threw, and every request before
   * that one succeeded.
   */
  lemma {:induction false} IssuedPrefix(requests: seq<PlaylistRequest>, execute: Executor)
    ensures var r := Issue(requests, execute);
      && (r.thrown.None? ==> r.sent == requests)
      && (r.thrown.Some? ==>
        0 < |r.sent| <= |requests| && r.sent == requests[..|r.sent|] && execute(r.sent[|r.sent| - 1]) == r.thrown)
      && (forall i :: 0 <= i < |r.sent| - 1 ==> execute(r.sent[i]).None?)
      && (r.thrown.None? ==> forall i :: 0 <= i < |r.sent| ==> execute(r.sent[i]).None?)
  {
    if |requests| > 0 && execute(requests[0]).None? {
      IssuedPrefix(requests[1..], execute);
      var rest := Issue(requests[1..], execute);
      assert forall i :: 1 <= i < |rest.sent| + 1 ==> ([requests[0]] + rest.sent)[i] == rest.sent[i - 1];
    }
  }

  /** Once the first `k` requests have succeeded, the loop goes on from request `k`. */
  lemma {:induction false} IssueAfterSuccesses(all: seq<PlaylistRequest>, k: nat, execute: Executor)
    requires k <= |all|
    requires forall i :: 0 <= i < k ==> execute(all[i]).None?
    ensures Issue(all, execute) == Issued(all[..k] + Issue(all[k..], execute).sent, Issue(all[k..], execute).thrown)
  {
    if k > 0 {
      IssueAfterSuccesses(all[1..], k - 1, execute);
      assert all[1..][k - 1..] == all[k..];
      assert all[..k] == [all[0]] + all[1..][..k - 1];
    }
  }

  /** The loop ends at the first request that throws, having sent it. */
  lemma IssueStopsAt(all: seq<PlaylistRequest>, k: nat, execute: Executor)
    requires k < |all|
    requires forall i :: 0 <= i < k ==> execute(all[i]).None?
    requires execute(all[k]).Some?
    ensures Issue(all, execute) == Issued(all[..k + 1], execute(all[k]))
  {
    IssueAfterSuccesses(all, k, execute);
    assert all[..k + 1] == all[..k] + [all[k]];
  }

  /** `TRACK_URI_PREFIX + id` for each id, in order; a null id prints as "null". */
  function TrackUris(trackIds: seq<Option<string>>): seq<string>
  {
    seq(|trackIds|, i requires 0 <= i < |trackIds| => TRACK_URI_PREFIX + StringOf(trackIds[i]))
  }

  /** Each track URI gives its id back through `getIdFromUri`. */
  lemma TrackUrisRoundTrip(trackIds: seq<Option<string>>, i: nat)
    requires i < |trackIds| && trackIds[i].Some?
    requires ':' !in trackIds[i].value && trackIds[i].value != ""
    ensures SpotifyUtils.GetIdFromUri(TrackUris(trackIds)[i]) == Success(trackIds[i].value)
  {
    assert TrackUris(trackIds)[i] == "spotify:track" + ":" + trackIds[i].value;
    SpotifyUtils.GetIdFromUriAfterLastColon("spotify:track", trackIds[i].value);
  }

  /** The `{"uri": item.getUri()}` entries of one removal request. */
  function ItemUris(items: seq<PlaylistItem>): seq<Option<string>>
  {
    seq(|items|, i requires 0 <= i < |items| => items[i].uri)
  }

  /** One removal request per batch. */
  function RemovalRequests(playlistId: Option<string>, batches: seq<seq<PlaylistItem>>): seq<PlaylistRequest>
  {
    seq(|batches|, i requires 0 <= i < |batches| => RemoveItems(playlistId, ItemUris(batches[i])))
  }

  /** The entries of all removal requests, in order. */
  function RemovedEntries(requests: seq<PlaylistRequest>): seq<Option<string>>
  {
    if |requests| == 0 then []
    else (if requests[0].RemoveItems? then requests[0].tracks else []) + RemovedEntries(requests[1..])
  }

  /** The removal requests of a list of batches carry the batches' entries, concatenated. */
  lemma {:induction false} RemovedEntriesOfBatches(playlistId: Option<string>, batches: seq<seq<PlaylistItem>>)
    ensures RemovedEntries(RemovalRequests(playlistId, batches)) == ItemUris(Flatten(batches))
  {
    if |batches| > 0 {
      RemovedEntriesOfBatches(playlistId, batches[1..]);
      assert RemovalRequests(playlistId, batches)[1..] == RemovalRequests(playlistId, batches[1..]);
      assert ItemUris(batches[0] + Flatten(batches[1..])) == ItemUris(batches[0]) + ItemUris(Flatten(batches[1..]));
    }
  }

  /**
   * Removing n items takes ceil(n / 100) requests, each of 1 to 100
   * entries, whose entries in order are the items' URIs.
   */
  lemma RemovalBatches(playlistId: Option<string>, items: seq<PlaylistItem>)
    ensures var requests := RemovalRequests(playlistId, SpotifyUtils.Partition(items, PLAYLIST_INTERACTION_LIMIT));
      && (|requests| - 1) * 100 < |items| <= |requests| * 100
      && (forall i :: 0 <= i < |requests| ==> 1 <= |requests[i].tracks| <= 100)
      && RemovedEntries(requests) == ItemUris(items)
  {
    var batches := SpotifyUtils.Partition(items, PLAYLIST_INTERACTION_LIMIT);
    SpotifyUtils.PartitionSizes(items, PLAYLIST_INTERACTION_LIMIT);
    SpotifyUtils.PartitionFlatten(items, PLAYLIST_INTERACTION_LIMIT);
    RemovedEntriesOfBatches(playlistId, batches);
  }

  class PlaylistService {
    /** The requests built and handed to `execute`, oldest first. */
    var sent: seq<PlaylistRequest>
    const execute: Executor
    const toBase64Image: string -> Option<string>

    constructor (execute: Executor, toBase64Image: string -> Option<string>)
      ensures sent == [] && this.execute == execute && this.toBase64Image == toBase64Image
    {
      sent := [];
      this.execute := execute;
      this.toBase64Image := toBase64Image;
    }

    /** Builds, logs and executes one request. */
    method Send(request: PlaylistRequest) returns (thrown: Option<Exception>)
      modifies this
      ensures sent == old(sent) + [request] && thrown == execute(request)
    {
      sent := sent + [request];
      thrown := execute(request);
    }

    /**
     * `addSongsToPlaylistById(playlist, trackIds, position)`: nothing for no
     * ids; otherwise one request with the track URIs in input order and
     * the position only when one is given.
     */
    method AddSongsToPlaylistById(playlist: Playlist, trackIds: seq<Option<string>>, position: Option<int>)
      returns (thrown: Option<Exception>)
      modifies this
      ensures |trackIds| == 0 ==> sent == old(sent) && thrown.None?
      ensures |trackIds| > 0 ==>
        var request := AddItems(playlist.id, TrackUris(trackIds), position);
        sent == old(sent) + [request] && thrown == execute(request)
    {
      if |trackIds| == 0 {
        return None;
      }
      var json: seq<string> := [];
      for i := 0 to |trackIds|
        invariant json == TrackUris(trackIds[..i])
      {
        json := json + [TRACK_URI_PREFIX + StringOf(trackIds[i])];
      }
      assert trackIds[..|trackIds|] == trackIds;
      var position' := if position.Some? then Some(position.value) else None;
      thrown := Send(AddItems(playlist.id, json, position'));
    }

    /** `addSongsToPlaylistById(playlist, trackIds)`: appended at the end. */
    method AddSongsToPlaylistByIdAtEnd(playlist: Playlist, trackIds: seq<Option<string>>) returns (thrown: Option<Exception>)
      modifies this
      ensures |trackIds| == 0 ==> sent == old(sent) && thrown.None?
      ensures |trackIds| > 0 ==>
        sent == old(sent) + [AddItems(playlist.id, TrackUris(trackIds), None)]
        && thrown == execute(AddItems(playlist.id, TrackUris(trackIds), None))
    {
      thrown := AddSongsToPlaylistById(playlist, trackIds, None);
    }

    /** `addSongsToPlaylistByIdTop`: inserted at position 0. */
    method AddSongsToPlaylistByIdTop(playlist: Playlist, trackIds: seq<Option<string>>) returns (thrown: Option<Exception>)
      modifies this
      ensures |trackIds| == 0 ==> sent == old(sent) && thrown.None?
      ensures |trackIds| > 0 ==>
        sent == old(sent) + [AddItems(playlist.id, TrackUris(trackIds), Some(0))]
        && thrown == execute(AddItems(playlist.id, TrackUris(trackIds), Some(0)))
    {
      thrown := AddSongsToPlaylistById(playlist, trackIds, Some(0));
    }

    /** `addTracksToPlaylist(playlist, tracks, position)`: the tracks' ids, in order. */
    method AddTracksToPlaylist(playlist: Playlist, tracks: seq<Track>, position: Option<int>) returns (thrown: Option<Exception>)
      modifies this
      ensures |tracks| == 0 ==> sent == old(sent) && thrown.None?
      ensures |tracks| > 0 ==>
        var request := AddItems(playlist.id, TrackUris(TrackIds(tracks)), position);
        sent == old(sent) + [request] && thrown == execute(request)
    {
      var trackIds := seq(|tracks|, i requires 0 <= i < |tracks| => tracks[i].id);
      assert trackIds == TrackIds(tracks);
      thrown := AddSongsToPlaylistById(playlist, trackIds, position);
    }

    /** `addTracksToPlaylist(playlist, tracks)`. */
    method AddTracksToPlaylistAtEnd(playlist: Playlist, tracks: seq<Track>) returns (thrown: Option<Exception>)
      modifies this
      ensures |tracks| == 0 ==> sent == old(sent) && thrown.None?
      ensures |tracks| > 0 ==>
        sent == old(sent) + [AddItems(playlist.id, TrackUris(TrackIds(tracks)), None)]
        && thrown == execute(AddItems(playlist.id, TrackUris(TrackIds(tracks)), None))
    {
      thrown := AddTracksToPlaylist(playlist, tracks, None);
    }

    /** `addTracksToPlaylistTop(playlist, tracks)`. */
    method AddTracksToPlaylistTop(playlist: Playlist, tracks: seq<Track>) returns (thrown: Option<Exception>)
      modifies this
      ensures |tracks| == 0 ==> sent == old(sent) && thrown.None?
      ensures |tracks| > 0 ==>
        sent == old(sent) + [AddItems(playlist.id, TrackUris(TrackIds(tracks)), Some(0))]
        && thrown == execute(AddItems(playlist.id, TrackUris(TrackIds(tracks)), Some(0)))
    {
      thrown := AddTracksToPlaylist(playlist, tracks, Some(0));
    }

    /**
     * `removeItemsFromPlaylist(playlistId, itemsToDelete)`: one request per
     * batch of 100 from `partitionList`, sent in order; an exception ends
     * the loop.
     */
    method RemoveItemsFromPlaylist(playlistId: Option<string>, itemsToDelete: seq<PlaylistItem>) returns (thrown: Option<Exception>)
      modifies this
      ensures var out := Issue(RemovalRequests(playlistId, SpotifyUtils.Partition(itemsToDelete, PLAYLIST_INTERACTION_LIMIT)), execute);
        sent == old(sent) + out.sent && thrown == out.thrown
    {
      var partitions := SpotifyUtils.PartitionList(itemsToDelete, PLAYLIST_INTERACTION_LIMIT);
      ghost var all := RemovalRequests(playlistId, partitions);
      ghost var start := sent;
      var k := 0;
      while k < |partitions|
        invariant 0 <= k <= |partitions|
        invariant sent == start + all[..k]
        invariant forall i :: 0 <= i < k ==> execute(all[i]).None?
        decreases |partitions| - k
      {
        var partitionDeletion := DeletionEntries(partitions[k]);
        assert all[k] == RemoveItems(playlistId, partitionDeletion);
        sent := sent + [RemoveItems(playlistId, partitionDeletion)];
        var e := execute(RemoveItems(playlistId, partitionDeletion));
        if e.Some? {
          IssueStopsAt(all, k, execute);
          assert sent == start + all[..k + 1];
          return e;
        }
        assert all[..k + 1] == all[..k] + [all[k]];
        k := k + 1;
      }
      IssueAfterSuccesses(all, k, execute);
      assert all[..k] == all;
      return None;
    }

    /**
     * `attachImageToPlaylist(playlist, imageUrl)`: no request without a URL
     * or when the image cannot be encoded; otherwise one upload.
     */
    method AttachImageToPlaylist(playlist: Playlist, imageUrl: Option<string>) returns (thrown: Option<Exception>)
      modifies this
      ensures (imageUrl.None? || toBase64Image(imageUrl.value).None?) ==> sent == old(sent) && thrown.None?
      ensures imageUrl.Some? && toBase64Image(imageUrl.value).Some? ==>
        var request := UploadCoverImage(playlist.id, toBase64Image(imageUrl.value).value);
        sent == old(sent) + [request] && thrown == execute(request)
    {
      thrown := None;
      if imageUrl.Some? {
        var base64image := toBase64Image(imageUrl.value);
        if base64image.Some? {
          thrown := Send(UploadCoverImage(playlist.id, base64image.value));
        }
      }
    }
  }

  /** The `{"uri": ...}` entries of one batch, in order. */
  method DeletionEntries(partition: seq<PlaylistItem>) returns (partitionDeletion: seq<Option<string>>)
    ensures partitionDeletion == ItemUris(partition)
  {
    partitionDeletion := [];
    for j := 0 to |partition|
      invariant partitionDeletion == ItemUris(partition[..j])
    {
      assert partition[..j + 1][..j] == partition[..j];
      partitionDeletion := partitionDeletion + [partition[j].uri];
    }
    assert partition[..|partition|] == partition;
  }

  /** `tracks.stream().map(Track::getId)`. */
  function TrackIds(tracks: seq<Track>): (r: seq<Option<string>>)
    ensures |r| == |tracks| && forall i :: 0 <= i < |r| ==> r[i] == tracks[i].id
  {
    seq(|tracks|, i requires 0 <= i < |tracks| => tracks[i].id)
  }
}
