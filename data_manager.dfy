/**
 * The upload history of the Next.js data-manager page: each successful
 * upload puts its item in front of the list, and the list keeps at most
 * fifty items.
 */
module DataManager {
  import opened Seqs

  /** The most items the page keeps. */
  const HistoryLimit: nat := 50

  datatype UploadStatus = Success | Error | Pending

  /** One line of the history, as the upload form reports it. */
  datatype UploadHistoryItem = UploadHistoryItem(id: string, name: string, status: UploadStatus, triplesLoaded: int, timestamp: string)

  /** `handleUploadSuccess`: the history after one more upload. */
  function AddUpload(prev: seq<UploadHistoryItem>, item: UploadHistoryItem): (next: seq<UploadHistoryItem>)
    ensures |next| <= HistoryLimit
  {
    Take([item] + prev, HistoryLimit)
  }

  /**
   * The new item comes first; what follows is the start of the previous
   * history in its order; only a full history loses its oldest item, and
   * otherwise the history grows by exactly one.
   */
  lemma AddUploadSpec(prev: seq<UploadHistoryItem>, item: UploadHistoryItem)
    ensures AddUpload(prev, item)[0] == item
    ensures AddUpload(prev, item)[1..] == prev[..|AddUpload(prev, item)| - 1]
    ensures |prev| < HistoryLimit ==> AddUpload(prev, item) == [item] + prev
    ensures |prev| >= HistoryLimit ==> |AddUpload(prev, item)| == HistoryLimit
  {
    var next := AddUpload(prev, item);
    assert next == ([item] + prev)[..|next|];
    assert next[1..] == prev[..|next| - 1];
  }

  /** After any series of uploads the history holds at most fifty items, the latest first. */
  lemma {:induction false} UploadsBounded(prev: seq<UploadHistoryItem>, items: seq<UploadHistoryItem>)
    requires |prev| <= HistoryLimit
    ensures |AddUploads(prev, items)| <= HistoryLimit
    ensures items != [] ==> AddUploads(prev, items)[0] == items[|items| - 1]
  {
    if items != [] {
      UploadsBounded(prev, items[..|items| - 1]);
      AddUploadSpec(AddUploads(prev, items[..|items| - 1]), items[|items| - 1]);
    }
  }

  /** The history after the items were uploaded one after the other. */
  function AddUploads(prev: seq<UploadHistoryItem>, items: seq<UploadHistoryItem>): seq<UploadHistoryItem> {
    if items == [] then prev else AddUpload(AddUploads(prev, items[..|items| - 1]), items[|items| - 1])
  }

  /** Starting from the empty history, at most fifty uploads are all kept, the latest first. */
  lemma {:induction false} FewUploadsAllKept(items: seq<UploadHistoryItem>)
    requires |items| <= HistoryLimit
    ensures AddUploads([], items) == Reversed(items)
  {
    if items != [] {
      var init, last := items[..|items| - 1], items[|items| - 1];
      FewUploadsAllKept(init);
      AddUploadSpec(AddUploads([], init), last);
      assert Reversed(items) == [last] + Reversed(init);
    }
  }

  /** The items in the opposite order. */
  function Reversed<T>(s: seq<T>): (r: seq<T>)
    ensures |r| == |s|
  {
    if s == [] then [] else [s[|s| - 1]] + Reversed(s[..|s| - 1])
  }
}
