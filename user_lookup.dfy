/** `updateUserLookup` (lib/userLookup.js): the best-effort write of the
    username-to-uid entry of the `UserLookup` collection. */
module UserLookup {
  import opened JsText
  import opened Firebase

  /** `segments.filter(segment => segment.length > 0)`: the non-empty
      pieces, in order. */
  function NonEmptySegments(pieces: seq<string>): (r: seq<string>)
    ensures |r| <= |pieces|
    ensures forall i :: 0 <= i < |r| ==> r[i] != "" && r[i] in pieces
    ensures forall p :: p in pieces && p != "" ==> p in r
  {
    if pieces == [] then []
    else
      var rest := NonEmptySegments(pieces[1..]);
      assert forall p :: p in pieces[1..] ==> p in pieces;
      assert forall p :: p in pieces ==> p == pieces[0] || p in pieces[1..];
      (if pieces[0] == "" then [] else [pieces[0]]) + rest
  }

  /** The document ID that `doc(collection(db, "UserLookup"), key)` names
      at the top level of the collection, or `None` when it names none.
      Firestore's JavaScript SDK reads `key` as a path: a `//` throws, and
      the key splits at `/` with its empty segments dropped. Exactly one
      segment is a document of the collection; none, or an even number of
      them, is not a document path and throws; an odd number above one names
      a document in a subcollection. */
  function TopLevelId(key: string): (id: Option<string>)
    ensures Includes(key, "//") ==> id.None?
    ensures key != "" && '/' !in key ==> id == Some(key)
    ensures id.Some? ==> id.value != "" && '/' !in id.value
    // the ID is the key's only non-empty segment
    ensures id.Some? ==> forall p :: p in Split(key, '/') && p != "" ==> p == id.value
  {
    if Includes(key, "//") then
      IncludesHead(key, "//");
      None
    else
      var segments := NonEmptySegments(Split(key, '/'));
      if |segments| == 1 then
        OnlySegment(Split(key, '/'));
        Some(segments[0])
      else None
  }

  /** When one segment survives the filter, every non-empty piece is it. */
  lemma OnlySegment(pieces: seq<string>)
    requires |NonEmptySegments(pieces)| == 1
    ensures forall p :: p in pieces && p != "" ==> p == NonEmptySegments(pieces)[0]
  {
    var r := NonEmptySegments(pieces);
    forall p | p in pieces && p != ""
      ensures p == r[0]
    {
      assert p in r;
    }
  }

  /** A leading slash is dropped: `"/bob"` names the document `bob`. */
  lemma LeadingSlashDropped(name: string)
    requires name != "" && '/' !in name
    ensures TopLevelId("/" + name) == Some(name)
  {
    LeadingSlashSegments(name);
    NoDoubleAfterSlash(name);
  }

  /** `"/name"` splits into an empty piece and `name`. */
  lemma LeadingSlashSegments(name: string)
    requires name != "" && '/' !in name
    ensures NonEmptySegments(Split("/" + name, '/')) == [name]
  {
    SplitCons("", '/', name);
    assert "" + ['/'] + name == "/" + name;
    assert ["", name][1..] == [name];
    assert [name][1..] == [];
  }

  /** A slash followed by a slash-free name does not include `//`. */
  lemma NoDoubleAfterSlash(name: string)
    requires name != "" && '/' !in name
    ensures !Includes("/" + name, "//")
  {
    var key := "/" + name;
    assert key[1..] == name;
    assert key[..2] != "//" by { assert key[1] == name[0]; }
    if Includes(name, "//") {
      IncludesHead(name, "//");
    }
  }

  /** A trailing slash is dropped: `"bob/"` names the document `bob`. */
  lemma TrailingSlashDropped(name: string)
    requires name != "" && '/' !in name
    ensures TopLevelId(name + "/") == Some(name)
  {
    var key := name + "/";
    SplitCons(name, '/', "");
    assert name + ['/'] + "" == key;
    assert Split(key, '/') == [name, ""];
    assert NonEmptySegments([name, ""]) == [name] by {
      assert [name, ""][1..] == [""];
      assert [""][1..] == [];
    }
    NoDoubleInSlashFree(name);
  }

  /** A slash-free name followed by one slash does not include `//`. */
  lemma {:induction false} NoDoubleInSlashFree(name: string)
    requires '/' !in name
    ensures !Includes(name + "/", "//")
  {
    var key := name + "/";
    if |key| >= 2 {
      assert key[0] == name[0];
      assert key[1..] == name[1..] + "/";
      NoDoubleInSlashFree(name[1..]);
    }
  }

  /** Two names joined by a slash name no top-level document: the write
      would throw (two segments make a collection path). */
  lemma InnerSlashWritesNothing(a: string, b: string)
    requires a != "" && b != "" && '/' !in a && '/' !in b
    ensures TopLevelId(a + "/" + b).None?
  {
    SplitCons(a, '/', b);
    assert a + ['/'] + b == a + "/" + b;
    assert Split(a + "/" + b, '/') == [a, b];
    assert NonEmptySegments([a, b]) == [a, b] by {
      assert [a, b][1..] == [b];
      assert [b][1..] == [];
    }
  }

  /** The document ID `updateUserLookup` writes under, or `None` when it
      writes nothing at the top level of the collection: a falsy uid or
      username returns early, a username that is not a string makes
      `toLowerCase` throw inside the `try`, which swallows the error, and a
      lower-cased name that is not a single path segment either throws
      inside the `try` or writes into a subcollection. */
  function LookupKey(uid: string, username: Value): (k: Option<string>)
    ensures k.Some? <==> uid != "" && username.Str? && username.s != "" && TopLevelId(ToLowerCase(username.s)).Some?
    ensures k.Some? ==> k.value != "" && '/' !in k.value
    ensures k.Some? ==> forall p :: p in Split(ToLowerCase(username.s), '/') && p != "" ==> p == k.value
    // a name without slashes is stored under its lower-cased form
    ensures uid != "" && username.Str? && username.s != "" && '/' !in ToLowerCase(username.s) ==>
      k == Some(ToLowerCase(username.s))
  {
    if uid == "" || !IsTruthy(username) then None
    else if !username.Str? then None
    else TopLevelId(ToLowerCase(username.s))
  }

  /** The `UserLookup` collection after `updateUserLookup(uid, username)`;
      `writeFails` is the outcome of its `setDoc`, whose error is swallowed. */
  function LookupAfter(table: map<string, Document>, uid: string, username: Value, writeFails: bool)
    : (t: map<string, Document>)
    ensures LookupKey(uid, username).None? || writeFails ==> t == table
    ensures LookupKey(uid, username).Some? && !writeFails ==>
      var k := LookupKey(uid, username).value;
      && t.Keys == table.Keys + {k}
      && t[k] == map["uid" := Str(uid)]
      && (forall k' :: k' in table && k' != k ==> t[k'] == table[k'])
  {
    match LookupKey(uid, username)
    case None => table
    case Some(k) => if writeFails then table else table[k := map["uid" := Str(uid)]]
  }

  /** Any earlier owner of the same lower-cased username loses the entry:
      the write checks no uniqueness. */
  lemma LookupOverwritesOwner(table: map<string, Document>, uid: string, other: string, name: string)
    requires uid != "" && name != "" && '/' !in ToLowerCase(name)
    requires ToLowerCase(name) in table && table[ToLowerCase(name)] == map["uid" := Str(other)]
    ensures LookupAfter(table, uid, Str(name), false)[ToLowerCase(name)] == map["uid" := Str(uid)]
    ensures |LookupAfter(table, uid, Str(name), false)| == |table|
  {
    var t := LookupAfter(table, uid, Str(name), false);
    assert t.Keys == table.Keys;
  }

  /** lib/userLookup.js:15-36. Never throws. */
  method UpdateUserLookup(db: Database, uid: string, username: Value, writeFails: bool)
    modifies db`userLookup
    ensures db.userLookup == LookupAfter(old(db.userLookup), uid, username, writeFails)
  {
    if uid == "" || !IsTruthy(username) {
      return;
    }
    if !username.Str? {
      // `toLowerCase` is not a function: the TypeError is caught and logged
      return;
    }
    var id := TopLevelId(ToLowerCase(username.s));
    if id.None? {
      // `doc` reads the key as a path: it throws, or the write goes to a
      // subcollection document
      return;
    }
    if !writeFails {
      db.userLookup := db.userLookup[id.value := map["uid" := Str(uid)]];
    }
  }
}
