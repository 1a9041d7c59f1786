/**
 * The driver's documents page: seven document slots, each filled from the
 * driver's storage folder by the file whose name starts with the slot's key
 * and '_'. Uploads are named `<key>_<timestamp>.<ext>` and never overwrite an
 * earlier upload.
 */
module Documents {
  import opened Wrappers
  import opened Text

  datatype DocKey = Aadhaar | License | Pan | Photo | Rc | Insurance | Puc

  /** The slots in the order the page lists them. */
  const DocumentTypes: seq<DocKey> := [Aadhaar, License, Pan, Photo, Rc, Insurance, Puc]

  function Key(k: DocKey): string {
    match k
    case Aadhaar => "aadhaar"
    case License => "license"
    case Pan => "pan"
    case Photo => "photo"
    case Rc => "rc"
    case Insurance => "insurance"
    case Puc => "puc"
  }

  function Label(k: DocKey): string {
    match k
    case Aadhaar => "Aadhaar Card"
    case License => "Driving License"
    case Pan => "PAN Card"
    case Photo => "Driver Photo"
    case Rc => "Vehicle RC"
    case Insurance => "Insurance Document"
    case Puc => "PUC Certificate"
  }

  /** A filled slot: the stored file's path in the bucket and its name. */
  datatype StoredDoc = StoredDoc(path: string, name: string)

  lemma EveryKeyListed(k: DocKey)
    ensures k in DocumentTypes
  {
  }

  /** Keys are distinct and free of '_'. */
  lemma KeysDistinct(j: DocKey, k: DocKey)
    ensures '_' !in Key(k)
    ensures Key(j) == Key(k) ==> j == k
  {
  }

  // ---------------------------------------------------------------------------
  // File names
  // ---------------------------------------------------------------------------

  /** `${key}_${Date.now()}.${ext}`, the extension being the text after the chosen file's last dot. */
  function DocFileName(k: DocKey, now: nat, fileName: string): string {
    Key(k) + "_" + NatToString(now) + "." + AfterLast(fileName, '.')
  }

  /** `${user.id}/${fileName}`. */
  function DocPath(userId: string, k: DocKey, now: nat, fileName: string): string {
    userId + "/" + DocFileName(k, now, fileName)
  }

  /** `file.name.startsWith(key + '_')`. */
  predicate Matches(name: string, k: DocKey) {
    StartsWith(name, Key(k) + "_")
  }

  /** A name built for one key is matched by that key and by no other. */
  lemma NameMatchesOnlyItsKey(k: DocKey, j: DocKey, now: nat, fileName: string)
    ensures Matches(DocFileName(k, now, fileName), j) <==> j == k
  {
    var name := DocFileName(k, now, fileName);
    var rest := NatToString(now) + "." + AfterLast(fileName, '.');
    assert name == Key(k) + ['_'] + rest;
    if Matches(name, j) {
      var n := |Key(j)| + 1;
      assert name == Key(j) + ['_'] + name[n..] by {
        assert name[..n] == Key(j) + "_";
        assert name == name[..n] + name[n..];
      }
      KeysDistinct(j, k);
      KeysDistinct(k, j);
      SameHead(Key(j), Key(k), '_', name[n..], rest);
    }
  }

  /** The stored file keeps the chosen file's extension. */
  lemma DocPathExtension(userId: string, k: DocKey, now: nat, fileName: string)
    ensures '.' in DocPath(userId, k, now, fileName)
    ensures AfterLast(DocPath(userId, k, now, fileName), '.') == AfterLast(fileName, '.')
  {
    var ext := AfterLast(fileName, '.');
    var path := DocPath(userId, k, now, fileName);
    AfterLastIsLastPart(fileName, '.');
    assert path == (userId + "/" + Key(k) + "_" + NatToString(now)) + ['.'] + ext;
    assert EndsWith(path, ['.'] + ext);
    EndsWithSeparated(path, '.', ext);
  }

  // ---------------------------------------------------------------------------
  // Choosing the file for a slot
  // ---------------------------------------------------------------------------

  /** Position of the first name matching `k`, or `|names|` when none does. */
  function FirstMatchAt(names: seq<string>, k: DocKey): (i: nat)
    ensures i <= |names|
    ensures i < |names| ==> Matches(names[i], k)
    ensures forall j :: 0 <= j < i ==> !Matches(names[j], k)
  {
    if names == [] then 0
    else if Matches(names[0], k) then 0
    else 1 + FirstMatchAt(names[1..], k)
  }

  /** `data?.find(file => file.name.startsWith(key + '_'))`: the first matching name. */
  function FirstMatch(names: seq<string>, k: DocKey): Option<string> {
    var i := FirstMatchAt(names, k);
    if i < |names| then Some(names[i]) else None
  }

  /** Position of the last name matching `k`. */
  function LastMatchAt(names: seq<string>, k: DocKey): (r: Option<nat>)
    ensures r.Some? ==> r.value < |names| && Matches(names[r.value], k)
    ensures r.Some? ==> forall j :: r.value < j < |names| ==> !Matches(names[j], k)
    ensures r.None? ==> forall j :: 0 <= j < |names| ==> !Matches(names[j], k)
  {
    if names == [] then None
    else if Matches(names[|names| - 1], k) then Some(|names| - 1)
    else LastMatchAt(names[..|names| - 1], k)
  }

  /** The last matching name: in a name-ascending listing, the newest upload for the key. */
  function LastMatch(names: seq<string>, k: DocKey): Option<string> {
    var r := LastMatchAt(names, k);
    if r.Some? then Some(names[r.value]) else None
  }

  /** The slot as written: the first matching file, or empty; a `null` listing leaves every slot empty. */
  function SlotAsWritten(userId: string, names: Option<seq<string>>, k: DocKey): Option<StoredDoc> {
    var pick := if names.Some? then FirstMatch(names.value, k) else None;
    if pick.Some? then Some(StoredDoc(userId + "/" + pick.value, pick.value)) else None
  }

  /** The slot as intended: the newest matching file, or empty. */
  function Slot(userId: string, names: Option<seq<string>>, k: DocKey): Option<StoredDoc> {
    var pick := if names.Some? then LastMatch(names.value, k) else None;
    if pick.Some? then Some(StoredDoc(userId + "/" + pick.value, pick.value)) else None
  }

  /** A listing in ascending name order, no name repeated. */
  predicate Sorted(names: seq<string>) {
    forall i, j :: 0 <= i < j < |names| ==> LexLess(names[i], names[j])
  }

  /** In a sorted listing the first matching name is the smallest matching name. */
  lemma FirstMatchSmallest(names: seq<string>, k: DocKey, j: nat)
    requires Sorted(names)
    requires j < |names| && Matches(names[j], k)
    ensures FirstMatch(names, k).Some?
    ensures FirstMatch(names, k).value == names[j] || LexLess(FirstMatch(names, k).value, names[j])
  {
  }

  /** In a sorted listing the last matching name is the largest matching name. */
  lemma LastMatchLargest(names: seq<string>, k: DocKey, j: nat)
    requires Sorted(names)
    requires j < |names| && Matches(names[j], k)
    ensures LastMatch(names, k).Some?
    ensures LastMatch(names, k).value == names[j] || LexLess(names[j], LastMatch(names, k).value)
  {
  }

  /** A listing with no file for a key leaves that slot empty, whatever it held before. */
  lemma MissingFileEmptiesSlot(userId: string, names: seq<string>, k: DocKey)
    requires forall i :: 0 <= i < |names| ==> !Matches(names[i], k)
    ensures Slot(userId, Some(names), k).None?
    ensures SlotAsWritten(userId, Some(names), k).None?
  {
    assert FirstMatchAt(names, k) == |names|;
  }

  /** A later stamp of the same width differs from the earlier one first by a larger digit. */
  lemma StampsOrdered(t1: nat, t2: nat) returns (i: nat)
    requires t1 < t2 && |NatToString(t1)| == |NatToString(t2)|
    ensures LessAt(NatToString(t1), NatToString(t2), i)
  {
    NatToStringValue(t1);
    NatToStringValue(t2);
    DigitsOrder(NatToString(t1), NatToString(t2));
    i :| LessAt(NatToString(t1), NatToString(t2), i);
  }

  /** Two uploads for one key: with stamps of one length, the later upload's name sorts after the earlier's. */
  lemma LaterUploadSortsAfter(k: DocKey, t1: nat, t2: nat, f1: string, f2: string)
    requires t1 < t2 && |NatToString(t1)| == |NatToString(t2)|
    ensures LexLess(DocFileName(k, t1, f1), DocFileName(k, t2, f2))
  {
    var i := StampsOrdered(t1, t2);
    var p := Key(k) + "_";
    var x1, x2 := "." + AfterLast(f1, '.'), "." + AfterLast(f2, '.');
    LexLessFramed(p, NatToString(t1), NatToString(t2), x1, x2, i);
    assert DocFileName(k, t1, f1) == p + NatToString(t1) + x1;
    assert DocFileName(k, t2, f2) == p + NatToString(t2) + x2;
  }

  /**
   * As written, once a key has an earlier and a later upload in the listing,
   * the slot never shows the later one: "Replace" appears to do nothing.
   */
  lemma AsWrittenShowsOldest(names: seq<string>, k: DocKey, t1: nat, t2: nat, f1: string, f2: string)
    requires Sorted(names)
    requires DocFileName(k, t1, f1) in names && DocFileName(k, t2, f2) in names
    requires t1 < t2 && |NatToString(t1)| == |NatToString(t2)|
    ensures FirstMatch(names, k) != Some(DocFileName(k, t2, f2))
  {
    var older, newer := DocFileName(k, t1, f1), DocFileName(k, t2, f2);
    LaterUploadSortsAfter(k, t1, t2, f1, f2);
    LexLessAsymmetric(older, newer);
    LexLessIrreflexive(newer);
    NameMatchesOnlyItsKey(k, k, t1, f1);
    var i1 :| 0 <= i1 < |names| && names[i1] == older;
    var i2 :| 0 <= i2 < |names| && names[i2] == newer;
    assert i1 < i2;
    var f := FirstMatchAt(names, k);
    assert f <= i1;
    assert names[f] != newer;
  }

  /** The intended choice never shows the earlier of two uploads for a key. */
  lemma SlotShowsNewer(names: seq<string>, k: DocKey, t1: nat, t2: nat, f1: string, f2: string)
    requires Sorted(names)
    requires DocFileName(k, t1, f1) in names && DocFileName(k, t2, f2) in names
    requires t1 < t2 && |NatToString(t1)| == |NatToString(t2)|
    ensures LastMatch(names, k) != Some(DocFileName(k, t1, f1))
  {
    var older, newer := DocFileName(k, t1, f1), DocFileName(k, t2, f2);
    LaterUploadSortsAfter(k, t1, t2, f1, f2);
    LexLessAsymmetric(older, newer);
    LexLessIrreflexive(older);
    NameMatchesOnlyItsKey(k, k, t2, f2);
    var i1 :| 0 <= i1 < |names| && names[i1] == older;
    var i2 :| 0 <= i2 < |names| && names[i2] == newer;
    assert i1 < i2;
    var r := LastMatchAt(names, k);
    assert r.Some? && r.value >= i2;
    assert names[r.value] != older;
  }

  // ---------------------------------------------------------------------------
  // Images
  // ---------------------------------------------------------------------------

  const ImageExtensions: seq<string> := ["jpg", "jpeg", "png", "gif", "webp"]

  /** `/\.(jpg|jpeg|png|gif|webp)$/i.test(url)`. */
  predicate IsImage(url: string) {
    var u := Lower(url);
    EndsWith(u, ".jpg") || EndsWith(u, ".jpeg") || EndsWith(u, ".png") || EndsWith(u, ".gif") || EndsWith(u, ".webp")
  }

  /** A URL shows as an image exactly when the text after its last dot is an image extension in any case. */
  lemma IsImageByExtension(url: string)
    ensures IsImage(url) <==> '.' in url && Lower(AfterLast(url, '.')) in ImageExtensions
  {
    var u := Lower(url);
    LowerHasDot(url);
    LowerKeepsExtension(url);
    EndsWithSeparated(u, '.', "jpg");
    EndsWithSeparated(u, '.', "jpeg");
    EndsWithSeparated(u, '.', "png");
    EndsWithSeparated(u, '.', "gif");
    EndsWithSeparated(u, '.', "webp");
    assert ".jpg" == ['.'] + "jpg" && ".jpeg" == ['.'] + "jpeg" && ".png" == ['.'] + "png";
    assert ".gif" == ['.'] + "gif" && ".webp" == ['.'] + "webp";
  }

  /** An uploaded document, under any URL prefix, shows as an image exactly when the chosen file had an image extension. */
  lemma UploadShownAsImage(prefix: string, userId: string, k: DocKey, now: nat, fileName: string)
    ensures IsImage(prefix + DocPath(userId, k, now, fileName)) <==> Lower(AfterLast(fileName, '.')) in ImageExtensions
  {
    var path := DocPath(userId, k, now, fileName);
    DocPathExtension(userId, k, now, fileName);
    AfterLastAppend(prefix, path, '.');
    assert '.' in prefix + path by {
      var i :| 0 <= i < |path| && path[i] == '.';
      assert (prefix + path)[|prefix| + i] == '.';
    }
    IsImageByExtension(prefix + path);
  }

  // ---------------------------------------------------------------------------
  // The page's state
  // ---------------------------------------------------------------------------

  /**
   * The loop of `listDocuments`: starting from a copy of the slots, every
   * key's slot is rewritten from the listing with the first matching file,
   * as the page's `find` picks it.
   */
  method CollectSlots(userId: string, names: Option<seq<string>>, documents: map<DocKey, Option<StoredDoc>>)
      returns (newDocs: map<DocKey, Option<StoredDoc>>)
    ensures forall k: DocKey :: k in newDocs && newDocs[k] == SlotAsWritten(userId, names, k)
    ensures newDocs.Keys == documents.Keys + set k | k in DocumentTypes
  {
    newDocs := documents;
    for i := 0 to |DocumentTypes|
      invariant forall j :: 0 <= j < i ==> DocumentTypes[j] in newDocs && newDocs[DocumentTypes[j]] == SlotAsWritten(userId, names, DocumentTypes[j])
      invariant newDocs.Keys == documents.Keys + set j | 0 <= j < i :: DocumentTypes[j]
    {
      var key := DocumentTypes[i];
      newDocs := newDocs[key := SlotAsWritten(userId, names, key)];
    }
    forall k: DocKey
      ensures k in newDocs && newDocs[k] == SlotAsWritten(userId, names, k)
    {
      EveryKeyListed(k);
    }
  }

  class DocumentsPage {
    var documents: map<DocKey, Option<StoredDoc>>
    var uploading: Option<DocKey>
    var message: string

    constructor ()
      ensures forall k: DocKey :: k in documents && documents[k].None?
      ensures uploading.None? && message == ""
    {
      documents := map k | k in DocumentTypes :: None;
      uploading, message := None, "";
      new;
      forall k: DocKey
        ensures k in documents && documents[k].None?
      {
        EveryKeyListed(k);
      }
    }

    /** `listDocuments`: a listing error changes nothing; otherwise every slot is rewritten with its first matching file. */
    method ListDocuments(userId: string, listing: Result<Option<seq<string>>, string>)
      modifies this
      ensures listing.Err? ==> documents == old(documents)
      ensures listing.Ok? ==> forall k: DocKey :: k in documents && documents[k] == SlotAsWritten(userId, listing.value, k)
      ensures uploading == old(uploading) && message == old(message)
    {
      if listing.Err? {
        return;
      }
      documents := CollectSlots(userId, listing.value, documents);
    }

    /**
     * `uploadDocument`: the file goes to `userId/key_now.ext`; the message
     * names the slot's label; on success the folder is listed again
     * (`relist`). `uploading` is cleared either way.
     */
    method UploadDocument(userId: string, k: DocKey, now: nat, fileName: string, result: Outcome<string>)
        returns (path: string, relist: bool)
      modifies this
      ensures path == DocPath(userId, k, now, fileName)
      ensures uploading.None? && documents == old(documents)
      ensures result.Fail? ==> message == "Upload failed for " + Label(k) + ": " + result.error && !relist
      ensures result.Pass? ==> message == Label(k) + " uploaded successfully!" && relist
    {
      uploading := Some(k);
      message := "";
      path := userId + "/" + DocFileName(k, now, fileName);
      if result.Fail? {
        message := "Upload failed for " + Label(k) + ": " + result.error;
        relist := false;
      } else {
        message := Label(k) + " uploaded successfully!";
        relist := true;
      }
      uploading := None;
    }
  }
}
