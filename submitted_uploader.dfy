/**
 The submitted upload field on the server (src/Traits/SubmittedDamnFineUploader.php):
 it turns the file ids a form submission carries into attached, protected file
 records, and renders those records for reports and CSV export. The files
 database is a parameter: the lookup of a record by (id, security token), an
 absent key standing for "no record".
 */
module SubmittedUploader {
  import opened Wrappers
  import opened Strings

  /** A stored file, as far as this field uses it; an `id` of 0 is a record that
      does not exist. */
  datatype FileRecord = FileRecord(id: int, name: string, url: string, absoluteUrl: string)

  type FileLookup = map<(string, string), FileRecord>

  const DefaultSecurityTokenName := "SecurityID"

  /** The POST variable the security token is read from: the configured name, or
      "SecurityID" when none is configured. */
  function SecurityTokenName(configured: Option<string>): (name: string)
    ensures configured.None? ==> name == "SecurityID"
    ensures configured.Some? ==> name == configured.value
  {
    configured.GetOr(DefaultSecurityTokenName)
  }

  /** The request's POST variable of that name, if sent. */
  function SecurityTokenValue(post: map<string, string>, tokenName: string): (token: Option<string>)
    ensures token.Some? <==> tokenName in post
    ensures token.Some? ==> token.value == post[tokenName]
  {
    if tokenName in post then Some(post[tokenName]) else None
  }

  /** PHP truthiness of an optional string: present, not "" and not "0". */
  predicate PhpTruthy(s: Option<string>)
  {
    s.Some? && s.value != "" && s.value != "0"
  }

  /** The record `getByDfuToken(uuid, token)` finds, when it has a non-empty ID. */
  function Attachable(db: FileLookup, uuid: string, token: string): (r: Option<FileRecord>)
    ensures r.Some? <==> (uuid, token) in db && db[(uuid, token)].id != 0
    ensures r.Some? ==> r.value == db[(uuid, token)]
  {
    if (uuid, token) in db && db[(uuid, token)].id != 0 then Some(db[(uuid, token)]) else None
  }

  /** The records the submitted ids resolve to under `token`, in submission order;
      ids without a record are skipped. */
  function Resolved(db: FileLookup, uuids: seq<string>, token: string): (rs: seq<FileRecord>)
    ensures |rs| <= |uuids|
    ensures forall r :: r in rs ==> r.id != 0
    decreases |uuids|
  {
    if |uuids| == 0 then []
    else
      Resolved(db, uuids[..|uuids| - 1], token)
        + match Attachable(db, uuids[|uuids| - 1], token) case Some(r) => [r] case None => []
  }

  /** A record is attached exactly when some submitted id resolves to it under the
      token: nothing is attached that the lookup did not return with an ID, and
      nothing such is skipped. */
  lemma {:induction false} ResolvedMembers(db: FileLookup, uuids: seq<string>, token: string, r: FileRecord)
    ensures r in Resolved(db, uuids, token) <==> exists u :: u in uuids && Attachable(db, u, token) == Some(r)
    decreases |uuids|
  {
    if |uuids| > 0 {
      var front := uuids[..|uuids| - 1];
      var last := uuids[|uuids| - 1];
      ResolvedMembers(db, front, token, r);
      assert uuids == front + [last];
      assert forall u :: u in uuids <==> u in front || u == last;
    }
  }

  /** The IDs of the listed records. */
  function Ids(files: seq<FileRecord>): set<int>
    decreases |files|
  {
    if |files| == 0 then {} else Ids(files[..|files| - 1]) + {files[|files| - 1].id}
  }

  lemma {:induction false} IdsMembers(files: seq<FileRecord>, x: int)
    ensures x in Ids(files) <==> exists i :: 0 <= i < |files| && files[i].id == x
    decreases |files|
  {
    if |files| > 0 {
      var front := files[..|files| - 1];
      IdsMembers(front, x);
      assert forall i :: 0 <= i < |front| ==> front[i] == files[i];
    }
  }

  /** No two records in the list share an ID. */
  predicate DistinctIds(files: seq<FileRecord>)
  {
    forall i, j :: 0 <= i < j < |files| ==> files[i].id != files[j].id
  }

  /** `Files()->add(record)`: a record whose ID is listed already is not added again. */
  function Attach(files: seq<FileRecord>, r: FileRecord): (res: seq<FileRecord>)
    ensures DistinctIds(files) ==> DistinctIds(res)
    ensures Ids(res) == Ids(files) + {r.id}
    ensures |files| <= |res| <= |files| + 1 && res[..|files|] == files
    ensures r.id !in Ids(files) ==> res == files + [r]
    ensures r.id in Ids(files) ==> res == files
  {
    if r.id in Ids(files) then files
    else
      IdsMembers(files, r.id);
      var res := files + [r];
      assert res[..|files|] == files;
      res
  }

  /** Attaching each record in turn. */
  function AttachAll(files: seq<FileRecord>, rs: seq<FileRecord>): (res: seq<FileRecord>)
    ensures DistinctIds(files) ==> DistinctIds(res)
    ensures Ids(res) == Ids(files) + Ids(rs)
    ensures |files| <= |res| && res[..|files|] == files
    decreases |rs|
  {
    if |rs| == 0 then files
    else
      var front := rs[..|rs| - 1];
      Attach(AttachAll(files, front), rs[|rs| - 1])
  }

  /** The records of the first `i + 1` ids are those of the first `i`, then the
      `i`-th id's record if it has one. */
  lemma ResolvedPrefix(db: FileLookup, uuids: seq<string>, i: nat, token: string)
    requires i < |uuids|
    ensures Resolved(db, uuids[..i + 1], token) == Resolved(db, uuids[..i], token)
      + match Attachable(db, uuids[i], token) case Some(r) => [r] case None => []
  {
    assert uuids[..i + 1][..i] == uuids[..i];
  }

  lemma AttachAllSnoc(files: seq<FileRecord>, rs: seq<FileRecord>, r: FileRecord)
    ensures AttachAll(files, rs + [r]) == Attach(AttachAll(files, rs), r)
    ensures Ids(rs + [r]) == Ids(rs) + {r.id}
  {
    assert (rs + [r])[..|rs|] == rs;
  }

  /** One line of the report rendering: the name, then a link to the file. */
  function Entry(f: FileRecord, title: string): string
  {
    f.name + " - <a href=\"" + f.url + "\" target=\"_blank\">" + title + "</a>"
  }

  /** One turn of the `foreach` of `setValue`, on the attached list and on the IDs. */
  lemma AttachStep(files: seq<FileRecord>, db: FileLookup, uuids: seq<string>, i: nat, token: string)
    requires i < |uuids|
    ensures var done := Resolved(db, uuids[..i], token);
      var next := Resolved(db, uuids[..i + 1], token);
      match Attachable(db, uuids[i], token)
      case Some(r) => AttachAll(files, next) == Attach(AttachAll(files, done), r) && Ids(next) == Ids(done) + {r.id}
      case None => next == done
  {
    ResolvedPrefix(db, uuids, i, token);
    var done := Resolved(db, uuids[..i], token);
    match Attachable(db, uuids[i], token)
    case Some(r) => AttachAllSnoc(files, done, r);
    case None => assert done + [] == done;
  }

  /** The `foreach` of `setValue`: look each id up under the token and attach and
      protect the record found. */
  method AttachSubmitted(files: seq<FileRecord>, protectedIds: set<int>, db: FileLookup,
                         uuids: seq<string>, token: string)
    returns (attached: seq<FileRecord>, protecting: set<int>)
    ensures attached == AttachAll(files, Resolved(db, uuids, token))
    ensures protecting == protectedIds + Ids(Resolved(db, uuids, token))
  {
    attached, protecting := files, protectedIds;
    for i := 0 to |uuids|
      invariant attached == AttachAll(files, Resolved(db, uuids[..i], token))
      invariant protecting == protectedIds + Ids(Resolved(db, uuids[..i], token))
    {
      AttachStep(files, db, uuids, i, token);
      var record := Attachable(db, uuids[i], token);
      if record.Some? {
        attached := Attach(attached, record.value);
        protecting := protecting + {record.value.id};
      }
    }
    assert uuids[..|uuids|] == uuids;
  }

  class SubmittedField {
    /** The `Files` relation, in the order it is listed. */
    var files: seq<FileRecord>
    /** IDs of the records `protectFile` was called on. */
    var protectedIds: set<int>
    const tokenName: string

    /** The invariant `SetValue` keeps: a record is listed at most once, as in a
        many-many relation. */
    ghost predicate Valid()
      reads this
    {
      DistinctIds(files)
    }

    constructor (configuredTokenName: Option<string>)
      ensures Valid()
      ensures files == [] && protectedIds == {}
      ensures tokenName == SecurityTokenName(configuredTokenName)
    {
      files, protectedIds := [], {};
      tokenName := SecurityTokenName(configuredTokenName);
    }

    /** `setValue`: with a non-empty array of ids and a security token in the request,
        attach and protect every record the ids resolve to under that token; otherwise
        change nothing. Returns the field itself. */
    method SetValue(uuids: Option<seq<string>>, post: map<string, string>, db: FileLookup)
      returns (field: SubmittedField)
      requires Valid()
      modifies this
      ensures Valid() && field == this
      ensures var token := SecurityTokenValue(post, tokenName);
        if uuids.Some? && |uuids.value| > 0 && PhpTruthy(token) then
          var attached := Resolved(db, uuids.value, token.value);
          && files == AttachAll(old(files), attached)
          && protectedIds == old(protectedIds) + Ids(attached)
        else
          && files == old(files)
          && protectedIds == old(protectedIds)
      ensures |old(files)| <= |files| && files[..|old(files)|] == old(files)
    {
      field := this;
      var token := SecurityTokenValue(post, tokenName);
      if uuids.Some? && |uuids.value| > 0 && PhpTruthy(token) {
        files, protectedIds := AttachSubmitted(files, protectedIds, db, uuids.value, token.value);
      }
    }

    /** `getExportValue`: every file's absolute URL, in order, joined by "|". */
    method ExportValue() returns (s: string)
      ensures exists links: seq<string> ::
        && |links| == |files|
        && (forall k :: 0 <= k < |files| ==> links[k] == files[k].absoluteUrl)
        && s == Join(links, "|")
      ensures files == [] ==> s == ""
      ensures |files| > 0 && (forall k :: 0 <= k < |files| ==> '|' !in files[k].absoluteUrl) ==>
        |Split(s, '|')| == |files| &&
        forall k :: 0 <= k < |files| ==> Split(s, '|')[k] == files[k].absoluteUrl
    {
      var links: seq<string> := [];
      for i := 0 to |files|
        invariant |links| == i
        invariant forall k :: 0 <= k < i ==> links[k] == files[k].absoluteUrl
      {
        links := links + [files[i].absoluteUrl];
      }
      s := Join(links, "|");
      if |files| > 0 && (forall k :: 0 <= k < |files| ==> '|' !in files[k].absoluteUrl) {
        SplitJoin(links, '|');
      }
    }

    /** `getFormattedValue`: one entry per file, in order, joined by "<br/>". */
    method FormattedValue(title: string) returns (s: string)
      ensures exists entries: seq<string> ::
        && |entries| == |files|
        && (forall k :: 0 <= k < |files| ==> entries[k] == Entry(files[k], title))
        && s == Join(entries, "<br/>")
      ensures files == [] ==> s == ""
    {
      var entries: seq<string> := [];
      for i := 0 to |files|
        invariant |entries| == i
        invariant forall k :: 0 <= k < i ==> entries[k] == Entry(files[k], title)
      {
        entries := entries + [Entry(files[i], title)];
      }
      s := Join(entries, "<br/>");
    }
  }
}
