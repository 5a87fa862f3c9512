/**
 * The Alpine.js component of the static front-end: the page switched by
 * the Ctrl+1..4 shortcuts, the upload of ontology files with its history,
 * and the toast notifications.
 *
 * The history identifiers and toast identifiers come from one counter
 * (`nextId`) standing in for the UUID generator; what the import
 * endpoint answers for each file and the clock are parameters.
 */
module AppJs {
  import opened Wrappers
  import opened Seqs
  import opened Strings
  import opened DataManager

  datatype ToastKind = SuccessToast | ErrorToast | WarningToast

  /** One notification; `show` is cleared before it is taken out of the list. */
  datatype Toast = Toast(id: nat, kind: ToastKind, message: string, show: bool)

  /** What the import endpoint answered for one file, or that the request threw. */
  datatype UploadReply = Imported(validationConforms: bool, triplesLoaded: int) | UploadFailed

  /** The state of the component that the modelled handlers touch. */
  datatype AppData = AppData(
    currentPage: string,
    uploadHistory: seq<UploadHistoryItem>,
    savedHistory: seq<UploadHistoryItem>,
    toasts: seq<Toast>,
    nextId: nat,
    uploaded: seq<string>)

  /** Size of the history written to storage. */
  const SavedLimit: nat := 50

  /** The page a key press selects, if it is one of the shortcuts. */
  function ShortcutPage(ctrl: bool, key: string): (r: Option<string>)
    ensures r.Some? ==> ctrl && r.value in ["graph", "dashboard", "data-manager", "relationship-editor"]
  {
    if !ctrl then None
    else if key == "1" then Some("graph")
    else if key == "2" then Some("dashboard")
    else if key == "3" then Some("data-manager")
    else if key == "4" then Some("relationship-editor")
    else None
  }

  /** Exactly Ctrl with one of the keys 1 to 4 switches page, and different keys select different pages. */
  lemma ShortcutSpec(ctrl: bool, key: string, key': string)
    ensures ShortcutPage(ctrl, key).Some? <==> ctrl && key in ["1", "2", "3", "4"]
    ensures ShortcutPage(ctrl, key).Some? && ShortcutPage(ctrl, key) == ShortcutPage(ctrl, key') ==> key == key'
  {
  }

  /** The file names the upload accepts. */
  predicate IsOntologyFile(name: string) {
    EndsWith(name, ".ttl") || EndsWith(name, ".owl") || EndsWith(name, ".rdf")
  }

  function ToastId(t: Toast): nat { t.id }

  /** Every toast has a distinct identifier, drawn before the counter. */
  ghost predicate ToastsValid(toasts: seq<Toast>, nextId: nat) {
    NoDup(Map(toasts, ToastId)) && forall i :: 0 <= i < |toasts| ==> toasts[i].id < nextId
  }

  /** `showToast`: a visible toast with the next identifier goes at the end. */
  function WithToast(d: AppData, kind: ToastKind, message: string): (r: AppData)
    ensures ToastsValid(d.toasts, d.nextId) ==> ToastsValid(r.toasts, r.nextId)
    ensures |r.toasts| == |d.toasts| + 1 && r.toasts[..|d.toasts|] == d.toasts
    ensures r.toasts[|d.toasts|].kind == kind && r.toasts[|d.toasts|].message == message && r.toasts[|d.toasts|].show
    ensures r.(toasts := d.toasts, nextId := d.nextId) == d && r.nextId > d.nextId
  {
    var r := d.(toasts := d.toasts + [Toast(d.nextId, kind, message, true)], nextId := d.nextId + 1);
    assert Map(r.toasts, ToastId) == Map(d.toasts, ToastId) + [d.nextId];
    r
  }

  /** `removeToast`, first half: the first toast with that identifier is hidden. */
  function HideToast(toasts: seq<Toast>, id: nat): (r: seq<Toast>)
    ensures |r| == |toasts| && Map(r, ToastId) == Map(toasts, ToastId)
  {
    var ids := Map(toasts, ToastId);
    if id in ids then
      var k := FirstIndex(ids, id);
      toasts[k := toasts[k].(show := false)]
    else toasts
  }

  /** With distinct identifiers, exactly the toast named is hidden and nothing else changes. */
  lemma HideToastSpec(toasts: seq<Toast>, id: nat)
    requires NoDup(Map(toasts, ToastId))
    ensures forall i :: 0 <= i < |toasts| ==>
      HideToast(toasts, id)[i] == if toasts[i].id == id then toasts[i].(show := false) else toasts[i]
  {
    var ids := Map(toasts, ToastId);
    if id in ids {
      var k := FirstIndex(ids, id);
      forall i | 0 <= i < |toasts| && toasts[i].id == id ensures i == k {
        assert ids[i] == ids[k];
      }
    }
  }

  /** `Array.prototype.splice(index, 1)`: removes the element at `index`, if there is one. */
  function SpliceAt(toasts: seq<Toast>, index: nat): (r: seq<Toast>)
    ensures index < |toasts| ==> |r| == |toasts| - 1
    ensures index >= |toasts| ==> r == toasts
  {
    if index < |toasts| then toasts[..index] + toasts[index + 1..] else toasts
  }

  /** The index `removeToast` as written captures for its delayed splice (`findIndex`). */
  function PendingIndex(toasts: seq<Toast>, id: nat): (r: Option<nat>)
    ensures r.Some? <==> exists i :: 0 <= i < |toasts| && toasts[i].id == id
    ensures r.Some? ==> r.value < |toasts| && toasts[r.value].id == id
  {
    var ids := Map(toasts, ToastId);
    if id in ids then Some(FirstIndex(ids, id))
    else
      assert forall i :: 0 <= i < |toasts| ==> ids[i] == toasts[i].id;
      None
  }

  /**
   * `removeToast` as written hides the toast and, 300 ms later, splices at
   * the index it found when it was called. A toast removed in between
   * shifts the list, so the delayed splice drops a visible toast and the
   * hidden one stays: when the first two of three toasts expire within
   * 300 ms of each other, the third, still visible, toast is removed and
   * the second, hidden, one is kept.
   */
  lemma StaleSpliceDropsVisibleToast()
    ensures var ts := [Toast(0, SuccessToast, "a", true), Toast(1, SuccessToast, "b", true), Toast(2, SuccessToast, "c", true)];
      var hidden := HideToast(HideToast(ts, 0), 1);
      && PendingIndex(ts, 0) == Some(0)
      && PendingIndex(HideToast(ts, 0), 1) == Some(1)
      && SpliceAt(SpliceAt(hidden, 0), 1) == [Toast(1, SuccessToast, "b", false)]
  {
    var ts := [Toast(0, SuccessToast, "a", true), Toast(1, SuccessToast, "b", true), Toast(2, SuccessToast, "c", true)];
    assert Map(ts, ToastId) == [0, 1, 2];
    var h0 := HideToast(ts, 0);
    assert Map(h0, ToastId) == [0, 1, 2];
    assert h0 == [Toast(0, SuccessToast, "a", false), Toast(1, SuccessToast, "b", true), Toast(2, SuccessToast, "c", true)];
    var hidden := HideToast(h0, 1);
    assert hidden == [Toast(0, SuccessToast, "a", false), Toast(1, SuccessToast, "b", false), Toast(2, SuccessToast, "c", true)];
  }

  /** The delayed removal, corrected: it takes out the toast with the identifier, wherever it is by then. */
  function RemoveById(toasts: seq<Toast>, id: nat): (r: seq<Toast>)
    ensures |r| <= |toasts|
  {
    var ids := Map(toasts, ToastId);
    if id in ids then SpliceAt(toasts, FirstIndex(ids, id)) else toasts
  }

  /** Removing one element of a list without repetitions leaves a list without repetitions. */
  lemma NoDupSplice(ids: seq<nat>, k: nat)
    requires NoDup(ids) && k < |ids|
    ensures NoDup(ids[..k] + ids[k + 1..])
  {
    var r := ids[..k] + ids[k + 1..];
    forall i, j | 0 <= i < j < |r| ensures r[i] != r[j] {
      var i' := if i < k then i else i + 1;
      var j' := if j < k then j else j + 1;
      assert r[i] == ids[i'] && r[j] == ids[j'];
    }
  }

  /** Splicing out the toast at `k`, with distinct identifiers, removes exactly the toasts carrying its identifier. */
  lemma SpliceMembers(toasts: seq<Toast>, k: nat)
    requires NoDup(Map(toasts, ToastId)) && k < |toasts|
    ensures forall t :: t in SpliceAt(toasts, k) <==> t in toasts && t.id != toasts[k].id
    ensures Map(SpliceAt(toasts, k), ToastId) == Map(toasts, ToastId)[..k] + Map(toasts, ToastId)[k + 1..]
  {
    var ids := Map(toasts, ToastId);
    var r := SpliceAt(toasts, k);
    forall t ensures t in r <==> t in toasts && t.id != toasts[k].id {
      if t in toasts && t.id != toasts[k].id {
        var i :| 0 <= i < |toasts| && toasts[i] == t;
        if i < k { assert r[i] == t; } else { assert r[i - 1] == t; }
      }
      if t in r {
        var i :| 0 <= i < |r| && r[i] == t;
        var i' := if i < k then i else i + 1;
        assert t == toasts[i'] && ids[i'] != ids[k];
      }
    }
  }

  /**
   * With distinct identifiers, the corrected removal takes out exactly the
   * toast named, keeps the others, and keeps the identifiers distinct.
   */
  lemma RemoveByIdSpec(toasts: seq<Toast>, nextId: nat, id: nat)
    requires ToastsValid(toasts, nextId)
    ensures forall t :: t in RemoveById(toasts, id) <==> t in toasts && t.id != id
    ensures |RemoveById(toasts, id)| == if id in Map(toasts, ToastId) then |toasts| - 1 else |toasts|
    ensures ToastsValid(RemoveById(toasts, id), nextId)
  {
    var ids := Map(toasts, ToastId);
    if id in ids {
      var k := FirstIndex(ids, id);
      SpliceMembers(toasts, k);
      NoDupSplice(ids, k);
      var r := RemoveById(toasts, id);
      forall i | 0 <= i < |r| ensures r[i].id < nextId {
        assert r[i] in toasts;
      }
    } else {
      forall t | t in toasts ensures t.id != id {
        var i :| 0 <= i < |toasts| && toasts[i] == t;
        assert ids[i] == t.id;
      }
    }
  }

  /** The two pending removals of the example, corrected: only the two expired toasts go. */
  lemma RemoveByIdExample()
    ensures var hidden := [Toast(0, SuccessToast, "a", false), Toast(1, SuccessToast, "b", false), Toast(2, SuccessToast, "c", true)];
      RemoveById(RemoveById(hidden, 0), 1) == [Toast(2, SuccessToast, "c", true)]
  {
    var hidden := [Toast(0, SuccessToast, "a", false), Toast(1, SuccessToast, "b", false), Toast(2, SuccessToast, "c", true)];
    assert Map(hidden, ToastId) == [0, 1, 2];
    var once := RemoveById(hidden, 0);
    assert once == hidden[1..];
    assert Map(once, ToastId) == [1, 2];
  }

  /** The history line an import answer produces. */
  function HistoryItem(id: nat, name: string, conforms: bool, triples: int, timestamp: string): UploadHistoryItem {
    UploadHistoryItem(IntToString(id), name, if conforms then Success else Error, triples, timestamp)
  }

  /** `uploadFile`: the state after one ontology file was sent to the import endpoint. */
  /** An answered upload: its line goes in front of the history, which is then stored. */
  function RecordImport(d: AppData, name: string, conforms: bool, triples: int, timestamp: string): (r: AppData)
    ensures DataValid(d) ==> DataValid(r)
  {
    var history := [HistoryItem(d.nextId, name, conforms, triples, timestamp)] + d.uploadHistory;
    d.(uploadHistory := history, savedHistory := Take(history, SavedLimit), nextId := d.nextId + 1)
  }

  function AfterUpload(d: AppData, name: string, reply: UploadReply, timestamp: string): AppData {
    var sent := d.(uploaded := d.uploaded + [name]);
    match reply
    case UploadFailed => WithToast(sent, ErrorToast, "Upload failed")
    case Imported(conforms, triples) =>
      var recorded := RecordImport(sent, name, conforms, triples, timestamp);
      if conforms then WithToast(recorded, SuccessToast, IntToString(triples) + " triples loaded successfully")
      else WithToast(recorded, ErrorToast, "Validation failed")
  }

  /**
   * One upload is logged; an answer puts its line in front of the history,
   * successful exactly when the graph conforms, and stores the first fifty
   * lines; a thrown request leaves the history alone. Either way it ends
   * with one toast, a success toast exactly when the graph conforms.
   */
  lemma AfterUploadSpec(d: AppData, name: string, reply: UploadReply, timestamp: string)
    requires ToastsValid(d.toasts, d.nextId)
    ensures var r := AfterUpload(d, name, reply, timestamp);
      && r.uploaded == d.uploaded + [name]
      && r.currentPage == d.currentPage
      && ToastsValid(r.toasts, r.nextId)
      && |r.toasts| == |d.toasts| + 1 && r.toasts[..|d.toasts|] == d.toasts
      && (r.toasts[|d.toasts|].kind == SuccessToast <==> reply.Imported? && reply.validationConforms)
      && r.toasts[|d.toasts|].kind != WarningToast
      && (reply.UploadFailed? ==> r.uploadHistory == d.uploadHistory && r.savedHistory == d.savedHistory)
      && (reply.Imported? ==>
            |r.uploadHistory| == |d.uploadHistory| + 1 && r.uploadHistory[1..] == d.uploadHistory
            && r.uploadHistory[0].name == name && r.uploadHistory[0].triplesLoaded == reply.triplesLoaded
            && (r.uploadHistory[0].status == Success <==> reply.validationConforms)
            && r.savedHistory == Take(r.uploadHistory, SavedLimit))
  {
  }

  /** One file of `processFiles`: an ontology file is uploaded, any other file gets a warning. */
  function AfterFile(d: AppData, name: string, reply: UploadReply, timestamp: string): AppData {
    if IsOntologyFile(name) then AfterUpload(d, name, reply, timestamp)
    else WithToast(d, WarningToast, "Unsupported file type: " + name)
  }

  /** `processFiles`: the files in order; the i-th file gets `replies(i)` and `clock(i)`. */
  function AfterFiles(d: AppData, names: seq<string>, replies: nat -> UploadReply, clock: nat -> string): AppData {
    if names == [] then d
    else
      var n := |names| - 1;
      AfterFile(AfterFiles(d, names[..n], replies, clock), names[n], replies(n), clock(n))
  }

  /** The number of files that reach the import endpoint and get an answer. */
  function Answered(names: seq<string>, replies: nat -> UploadReply): nat {
    if names == [] then 0
    else
      var n := |names| - 1;
      Answered(names[..n], replies) + if IsOntologyFile(names[n]) && replies(n).Imported? then 1 else 0
  }

  /** Whether the component's invariants hold of `d`. */
  ghost predicate DataValid(d: AppData) {
    ToastsValid(d.toasts, d.nextId) && d.savedHistory == Take(d.uploadHistory, SavedLimit)
  }

  /** One file: what is sent, the one toast it leaves, and the history line it may add. */
  lemma AfterFileSpec(d: AppData, name: string, reply: UploadReply, timestamp: string)
    requires DataValid(d)
    ensures var r := AfterFile(d, name, reply, timestamp);
      && DataValid(r)
      && r.uploaded == d.uploaded + (if IsOntologyFile(name) then [name] else [])
      && r.currentPage == d.currentPage
      && |r.toasts| == |d.toasts| + 1 && r.toasts[..|d.toasts|] == d.toasts
      && (r.toasts[|d.toasts|].kind == WarningToast <==> !IsOntologyFile(name))
      && (if IsOntologyFile(name) && reply.Imported? then r.uploadHistory[1..] == d.uploadHistory && |r.uploadHistory| == |d.uploadHistory| + 1
          else r.uploadHistory == d.uploadHistory)
  {
    if IsOntologyFile(name) {
      AfterUploadSpec(d, name, reply, timestamp);
    }
  }

  /**
   * A batch of files: exactly the ontology files are sent, in order; the
   * page does not change; the toast identifiers stay distinct and the
   * stored history stays the first fifty lines.
   */
  lemma {:induction false} AfterFilesSpec(d: AppData, names: seq<string>, replies: nat -> UploadReply, clock: nat -> string)
    requires DataValid(d)
    ensures var r := AfterFiles(d, names, replies, clock);
      && DataValid(r)
      && r.uploaded == d.uploaded + Filter(names, IsOntologyFile)
      && r.currentPage == d.currentPage
  {
    if names != [] {
      var n := |names| - 1;
      var prefix := names[..n];
      AfterFilesSpec(d, prefix, replies, clock);
      AfterFileSpec(AfterFiles(d, prefix, replies, clock), names[n], replies(n), clock(n));
      assert names == prefix + [names[n]];
      FilterAppend(prefix, [names[n]], IsOntologyFile);
    }
  }

  /**
   * Every file of a batch ends with one toast of its own, in order, a
   * warning exactly for the files that are not ontology files.
   */
  lemma {:induction false} AfterFilesToasts(d: AppData, names: seq<string>, replies: nat -> UploadReply, clock: nat -> string)
    ensures ToastPerFile(d.toasts, names, AfterFiles(d, names, replies, clock).toasts)
  {
    if names != [] {
      var n := |names| - 1;
      var prefix := names[..n];
      AfterFilesToasts(d, prefix, replies, clock);
      AfterFilesToastStep(d, names, replies, clock);
      ToastsExtend(d.toasts, prefix, names, AfterFiles(d, prefix, replies, clock).toasts, AfterFiles(d, names, replies, clock).toasts);
    }
  }

  /**
   * `toasts` is `base` followed by one toast per file, in order, a warning
   * exactly for the files that are not ontology files.
   */
  ghost predicate ToastPerFile(base: seq<Toast>, names: seq<string>, toasts: seq<Toast>) {
    && |toasts| == |base| + |names| && toasts[..|base|] == base
    && (forall i :: 0 <= i < |names| ==> (toasts[|base| + i].kind == WarningToast <==> !IsOntologyFile(names[i])))
  }

  /** The last file of a batch adds one toast after those of the files before it. */
  lemma AfterFilesToastStep(d: AppData, names: seq<string>, replies: nat -> UploadReply, clock: nat -> string)
    requires names != []
    ensures var mid := AfterFiles(d, names[..|names| - 1], replies, clock).toasts;
      var r := AfterFiles(d, names, replies, clock).toasts;
      && |r| == |mid| + 1 && r[..|mid|] == mid
      && (r[|mid|].kind == WarningToast <==> !IsOntologyFile(names[|names| - 1]))
  {
    var n := |names| - 1;
    AfterFileToast(AfterFiles(d, names[..n], replies, clock), names[n], replies(n), clock(n));
  }

  /** The toast part of one file's outcome. */
  lemma AfterFileToast(d: AppData, name: string, reply: UploadReply, timestamp: string)
    ensures var r := AfterFile(d, name, reply, timestamp);
      && |r.toasts| == |d.toasts| + 1 && r.toasts[..|d.toasts|] == d.toasts
      && (r.toasts[|d.toasts|].kind == WarningToast <==> !IsOntologyFile(name))
  {
  }

  /** One more file's toast extends the toasts of the files before it. */
  lemma ToastsExtend(base: seq<Toast>, prefix: seq<string>, names: seq<string>, mid: seq<Toast>, r: seq<Toast>)
    requires names != [] && prefix == names[..|names| - 1]
    requires ToastPerFile(base, prefix, mid)
    requires |r| == |mid| + 1 && r[..|mid|] == mid
    requires r[|mid|].kind == WarningToast <==> !IsOntologyFile(names[|names| - 1])
    ensures ToastPerFile(base, names, r)
  {
    assert r[..|base|] == mid[..|base|];
    forall i | 0 <= i < |names| ensures r[|base| + i].kind == WarningToast <==> !IsOntologyFile(names[i]) {
      if i < |names| - 1 {
        assert r[|base| + i] == mid[|base| + i];
        assert names[i] == prefix[i];
      }
    }
  }

  /** Each answered upload adds one history line in front; the old history stays at the end. */
  lemma {:induction false} AfterFilesHistory(d: AppData, names: seq<string>, replies: nat -> UploadReply, clock: nat -> string)
    requires DataValid(d)
    ensures var r := AfterFiles(d, names, replies, clock);
      && |r.uploadHistory| == |d.uploadHistory| + Answered(names, replies)
      && r.uploadHistory[Answered(names, replies)..] == d.uploadHistory
  {
    if names != [] {
      var n := |names| - 1;
      var prefix := names[..n];
      AfterFilesHistory(d, prefix, replies, clock);
      AfterFilesSpec(d, prefix, replies, clock);
      var mid := AfterFiles(d, prefix, replies, clock);
      var r := AfterFiles(d, names, replies, clock);
      AfterFileSpec(mid, names[n], replies(n), clock(n));
      var a := Answered(prefix, replies);
      if IsOntologyFile(names[n]) && replies(n).Imported? {
        assert r.uploadHistory[a + 1..] == r.uploadHistory[1..][a..];
      }
    }
  }

  /** The component, with the fields the modelled handlers change. */
  class App {
    var currentPage: string
    var uploadHistory: seq<UploadHistoryItem>
    /** What `saveUploadHistory` last wrote to storage. */
    var savedHistory: seq<UploadHistoryItem>
    var toasts: seq<Toast>
    /** The identifier generator. */
    var nextId: nat
    /** The names of the files sent to the import endpoint, in order. */
    var uploaded: seq<string>

    function Data(): AppData
      reads this
    {
      AppData(currentPage, uploadHistory, savedHistory, toasts, nextId, uploaded)
    }

    ghost predicate Valid()
      reads this
    {
      DataValid(Data())
    }

    /** The initial state: the graph page, no history, no toasts. */
    constructor()
      ensures Data() == AppData("graph", [], [], [], 0, []) && Valid()
    {
      currentPage := "graph";
      uploadHistory := [];
      savedHistory := [];
      toasts := [];
      nextId := 0;
      uploaded := [];
    }

    /** The keydown listener: a shortcut switches page, any other key changes nothing. */
    method HandleKeydown(ctrl: bool, key: string)
      modifies this
      ensures Data() == old(Data()).(currentPage := ShortcutPage(ctrl, key).GetOr(old(currentPage)))
    {
      var page := ShortcutPage(ctrl, key);
      if page.Some? {
        currentPage := page.value;
      }
    }

    /** `loadUploadHistory`: the history is read back from storage. */
    method LoadUploadHistory()
      modifies this
      ensures Data() == old(Data()).(uploadHistory := old(savedHistory))
    {
      uploadHistory := savedHistory;
    }

    method ShowToast(kind: ToastKind, message: string)
      requires Valid()
      modifies this
      ensures Valid() && Data() == WithToast(old(Data()), kind, message)
    {
      toasts := toasts + [Toast(nextId, kind, message, true)];
      nextId := nextId + 1;
    }

    /** `removeToast`: the toast is hidden at once; `ExpireToast` takes it out later. */
    method RemoveToast(id: nat)
      requires Valid()
      modifies this
      ensures Valid() && Data() == old(Data()).(toasts := HideToast(old(toasts), id))
    {
      var ids := Map(toasts, ToastId);
      if id in ids {
        var k := FirstIndex(ids, id);
        toasts := toasts[k := toasts[k].(show := false)];
      }
      assert Map(toasts, ToastId) == Map(old(toasts), ToastId);
    }

    /** The delayed half of `removeToast`, taking out the toast by identifier. */
    method ExpireToast(id: nat)
      requires Valid()
      modifies this
      ensures Valid() && Data() == old(Data()).(toasts := RemoveById(old(toasts), id))
    {
      RemoveByIdSpec(toasts, nextId, id);
      toasts := RemoveById(toasts, id);
    }

    method UploadFile(name: string, reply: UploadReply, timestamp: string)
      requires Valid()
      modifies this
      ensures Valid() && Data() == AfterUpload(old(Data()), name, reply, timestamp)
    {
      uploaded := uploaded + [name];
      match reply
      case UploadFailed =>
        ShowToast(ErrorToast, "Upload failed");
      case Imported(conforms, triples) =>
        RecordImportIn(name, conforms, triples, timestamp);
        if conforms {
          ShowToast(SuccessToast, IntToString(triples) + " triples loaded successfully");
        } else {
          ShowToast(ErrorToast, "Validation failed");
        }
    }

    method RecordImportIn(name: string, conforms: bool, triples: int, timestamp: string)
      requires Valid()
      modifies this
      ensures Valid() && Data() == RecordImport(old(Data()), name, conforms, triples, timestamp)
    {
      uploadHistory := [HistoryItem(nextId, name, conforms, triples, timestamp)] + uploadHistory;
      nextId := nextId + 1;
      savedHistory := Take(uploadHistory, SavedLimit);
    }

    method ProcessFiles(names: seq<string>, replies: nat -> UploadReply, clock: nat -> string)
      requires Valid()
      modifies this
      ensures Valid() && Data() == AfterFiles(old(Data()), names, replies, clock)
    {
      for i := 0 to |names|
        invariant Valid()
        invariant Data() == AfterFiles(old(Data()), names[..i], replies, clock)
      {
        assert names[..i + 1][..i] == names[..i];
        if IsOntologyFile(names[i]) {
          UploadFile(names[i], replies(i), clock(i));
        } else {
          ShowToast(WarningToast, "Unsupported file type: " + names[i]);
        }
      }
      assert names[..|names|] == names;
    }
  }
}
