/** The decisions of the Google Drive integration (integrations/google_drive.py)
    that do not depend on the Drive service: the argument checks made before
    a request is sent, and the plain-text summaries of file listings and of
    one file's metadata. */
module GoogleDrive {
  import opened Wrappers
  import opened Text
  import opened Report

  // ---------------------------------------------------------------------------
  // `list_files_modified_between` and `get_file_metadata` argument checks
  // ---------------------------------------------------------------------------

  const WindowError: string := "start_time must be before end_time"
  const MissingIdError: string := "file_id is required to fetch metadata"
  const MaxPageSize: int := 100

  /** The parameters of the `files().list` call. */
  datatype ListRequest = ListRequest(query: string, orderBy: string, pageSize: int)

  /** `min(max(page_size, 1), 100)` */
  function PageSize(requested: int): (r: int)
    ensures 1 <= r <= MaxPageSize
    ensures 1 <= requested <= MaxPageSize ==> r == requested
    ensures requested < 1 ==> r == 1
    ensures requested > MaxPageSize ==> r == MaxPageSize
  {
    var atLeastOne := if requested >= 1 then requested else 1;
    if atLeastOne <= MaxPageSize then atLeastOne else MaxPageSize
  }

  /** The listing request for a window of UTC instants (in seconds), or the
      error raised for a window that ends before it starts. The rendering of
      an instant as `%Y-%m-%dT%H:%M:%SZ` is the parameter `utcText`. */
  function ListFilesRequest(start: int, end: int, pageSize: int, utcText: int -> string): (r: Result<ListRequest>)
    ensures r.Failure? <==> start > end
    ensures r.Failure? ==> r.error == WindowError
    ensures r.Success? ==> r.value.pageSize == PageSize(pageSize) && r.value.orderBy == "modifiedTime desc"
    ensures r.Success? ==> StartsWith(r.value.query, "modifiedTime >= '" + utcText(start) + "'")
    ensures r.Success? ==> EndsWith(r.value.query, "modifiedTime <= '" + utcText(end) + "'")
  {
    if start > end then Failure(WindowError)
    else
      var lower := "modifiedTime >= '" + utcText(start) + "'";
      var upper := "modifiedTime <= '" + utcText(end) + "'";
      assert (lower + " and " + upper)[..|lower|] == lower;
      Success(ListRequest(lower + " and " + upper, "modifiedTime desc", PageSize(pageSize)))
  }

  /** A window that starts and ends at the same instant is accepted, and
      only a window whose start is later than its end is refused. */
  lemma WindowBoundaries(t: int, pageSize: int, utcText: int -> string)
    ensures ListFilesRequest(t, t, pageSize, utcText).Success?
    ensures ListFilesRequest(t + 1, t, pageSize, utcText) == Failure(WindowError)
  {
  }

  /** The file id a metadata request is made for, or the error raised for an
      empty id before any request. */
  function MetadataRequest(fileId: string): (r: Result<string>)
    ensures r.Failure? <==> fileId == []
    ensures r.Failure? ==> r.error == MissingIdError
    ensures r.Success? ==> r.value == fileId
  {
    if fileId == [] then Failure(MissingIdError) else Success(fileId)
  }

  // ---------------------------------------------------------------------------
  // `summarize_files`
  // ---------------------------------------------------------------------------

  /** An owner as the Drive API reports it; either field may be absent. */
  datatype DriveOwner = DriveOwner(displayName: Option<string>, emailAddress: Option<string>)

  /** A file entry of a listing. `None` is an absent key; an absent or empty
      owner list is the empty sequence. */
  datatype DriveFile = DriveFile(
    id: Option<string>, name: Option<string>, mimeType: Option<string>,
    modifiedTime: Option<string>, owners: seq<DriveOwner>)

  const FilesHeader: string := "Recent Google Drive activity:"
  const NoFilesLine: string := "- No file changes detected " + "in the selected window."

  /** `owner.get("displayName") or owner.get("emailAddress") or "Unknown"` */
  function OwnerName(o: DriveOwner): string {
    OrElse(o.displayName, OrElse(o.emailAddress, "Unknown"))
  }

  /** Each owner's rendered name, in order. */
  function OwnerNameList(owners: seq<DriveOwner>): (r: seq<string>)
    ensures |r| == |owners|
    ensures forall i :: 0 <= i < |owners| ==> r[i] == OwnerName(owners[i])
  {
    seq(|owners|, i requires 0 <= i < |owners| => OwnerName(owners[i]))
  }

  /** The owner names joined with ", ", or "Unknown owner" when that is
      empty. */
  function OwnerNames(owners: seq<DriveOwner>): string {
    var joined := Join(OwnerNameList(owners), ", ");
    if joined == [] then "Unknown owner" else joined
  }

  /** An owner renders as its display name when it has one, else its email
      address, else "Unknown"; so no rendered name is empty. */
  lemma OwnerNameCases(o: DriveOwner)
    ensures Truthy(o.displayName) ==> OwnerName(o) == o.displayName.value
    ensures !Truthy(o.displayName) && Truthy(o.emailAddress) ==> OwnerName(o) == o.emailAddress.value
    ensures !Truthy(o.displayName) && !Truthy(o.emailAddress) ==> OwnerName(o) == "Unknown"
    ensures OwnerName(o) != []
  {
  }

  /** A join starts with its first part. */
  lemma JoinStartsWithFirst(parts: seq<string>, sep: string)
    requires parts != []
    ensures StartsWith(Join(parts, sep), parts[0])
  {
    if |parts| > 1 {
      var j := Join(parts, sep);
      assert j == parts[0] + (sep + Join(parts[1..], sep));
      assert j[..|parts[0]|] == parts[0];
    }
  }

  /** "Unknown owner" stands for an empty owner list; otherwise the owners'
      names are listed in order, starting with the first owner's. */
  lemma OwnerNamesCases(owners: seq<DriveOwner>)
    ensures owners == [] ==> OwnerNames(owners) == "Unknown owner"
    ensures owners != [] ==> OwnerNames(owners) == Join(OwnerNameList(owners), ", ")
    ensures owners != [] ==> StartsWith(OwnerNames(owners), OwnerName(owners[0]))
  {
    if owners != [] {
      var names := OwnerNameList(owners);
      JoinStartsWithFirst(names, ", ");
      OwnerNameCases(owners[0]);
    }
  }

  /** The line `summarize_files` writes for one file. An absent id renders
      as Python's `None`. */
  function FileLine(f: DriveFile): string {
    "- " + f.name.GetOr("Untitled file") + " (ID: " + f.id.GetOr("None") + ") ["
    + f.mimeType.GetOr("unknown type") + "] modified " + OrElse(f.modifiedTime, "unknown")
    + " by " + OwnerNames(f.owners) + "."
  }

  function FileLines(files: seq<DriveFile>): (r: seq<string>)
    ensures |r| == |files|
    ensures forall i :: 0 <= i < |files| ==> r[i] == FileLine(files[i])
  {
    seq(|files|, i requires 0 <= i < |files| => FileLine(files[i]))
  }

  /** `summarize_files` */
  method SummarizeFiles(files: seq<DriveFile>) returns (summary: string)
    ensures summary == ReportText(FilesHeader, FileLines(files), NoFilesLine)
  {
    var lines := [FilesHeader];
    for i := 0 to |files|
      invariant lines == [FilesHeader] + FileLines(files[..i])
    {
      var item := files[i];
      var modified := item.modifiedTime;
      var timestamp := "unknown";
      if Truthy(modified) {
        timestamp := modified.value;
      }
      var ownerNames := OwnerNames(item.owners);
      lines := lines + ["- " + item.name.GetOr("Untitled file") + " (ID: " + item.id.GetOr("None") + ") ["
                        + item.mimeType.GetOr("unknown type") + "] modified " + timestamp
                        + " by " + ownerNames + "."];
      assert FileLines(files[..i + 1]) == FileLines(files[..i]) + [FileLine(files[i])];
    }
    assert files[..|files|] == files;
    if |lines| == 1 {
      lines := lines + [NoFilesLine];
    }
    summary := Join(lines, "\n");
  }

  lemma FilesHeaderIsSingleLine() ensures SingleLine(FilesHeader) {}
  lemma NoFilesLineIsSingleLine() ensures SingleLine(NoFilesLine) {}

  /** The files summary is the header, then one line per file in input
      order, or exactly the fallback line when there are no files. */
  lemma FilesSummaryLines(files: seq<DriveFile>)
    requires forall i :: 0 <= i < |files| ==> SingleLine(FileLine(files[i]))
    ensures var lines := Split(ReportText(FilesHeader, FileLines(files), NoFilesLine), '\n');
            && lines[0] == FilesHeader
            && (files == [] ==> lines == [FilesHeader, NoFilesLine])
            && |lines| == 1 + (if files == [] then 1 else |files|)
            && forall i :: 0 <= i < |files| ==> lines[i + 1] == FileLine(files[i])
  {
    FilesHeaderIsSingleLine();
    NoFilesLineIsSingleLine();
    var body := FileLines(files);
    ReportTextLines(FilesHeader, body, NoFilesLine);
    var lines := Split(ReportText(FilesHeader, body, NoFilesLine), '\n');
    forall i | 0 <= i < |files| ensures lines[i + 1] == FileLine(files[i]) {
      assert lines[i + 1] == lines[1..][i];
    }
  }

  // ---------------------------------------------------------------------------
  // `format_metadata`
  // ---------------------------------------------------------------------------

  /** A file's metadata: its string-valued fields by key, and its owners (an
      absent owner list is the empty sequence). */
  datatype Metadata = Metadata(fields: map<string, string>, owners: seq<DriveOwner>)

  const MetadataHeader: string := "Google Drive file metadata:"
  const NoMetadataLine: string := "- No metadata available."

  /** The keys `format_metadata` reports, in the order it reports them. */
  const MetadataKeys: seq<string> :=
    ["name", "id", "mimeType", "modifiedTime", "createdTime", "size", "webViewLink", "iconLink", "description"]

  /** `metadata.get(key)` */
  function FieldValue(m: Metadata, key: string): Option<string> {
    if key in m.fields then Some(m.fields[key]) else None
  }

  /** The line for one key, unless its value is absent or empty. */
  function FieldEntry(m: Metadata): string -> Option<string> {
    key => if Truthy(FieldValue(m, key)) then Some("- " + key + ": " + m.fields[key]) else None
  }

  function FieldLines(m: Metadata, keys: seq<string>): seq<string> {
    FilterMap(keys, FieldEntry(m))
  }

  /** `owner.get("displayName") or owner.get("emailAddress")` */
  function Display(o: DriveOwner): Option<string> {
    if Truthy(o.displayName) then o.displayName else o.emailAddress
  }

  /** The owner entry `format_metadata` writes: "display <email>" when the
      owner has an email address, the display name alone when it has only
      that, and nothing otherwise. */
  function OwnerEntry(o: DriveOwner): Option<string> {
    var display := Display(o);
    if Truthy(display) && Truthy(o.emailAddress) then Some(display.value + " <" + o.emailAddress.value + ">")
    else if Truthy(display) then Some(display.value)
    else None
  }

  function OwnerEntries(owners: seq<DriveOwner>): seq<string> {
    FilterMap(owners, OwnerEntry)
  }

  /** The owners line, when any owner has an entry. */
  function OwnersLine(owners: seq<DriveOwner>): seq<string> {
    var entries := OwnerEntries(owners);
    if entries == [] then [] else ["- owners: " + Join(entries, ", ")]
  }

  /** The lines `format_metadata` writes after its header, before the
      fallback. */
  function MetadataBody(m: Metadata): seq<string> {
    FieldLines(m, MetadataKeys) + OwnersLine(m.owners)
  }

  /** The owner loop of `format_metadata`: one entry per owner that has a
      display value, in order. */
  method CollectOwnerEntries(owners: seq<DriveOwner>) returns (entries: seq<string>)
    ensures entries == OwnerEntries(owners)
  {
    entries := [];
    for j := 0 to |owners|
      invariant entries == OwnerEntries(owners[..j])
    {
      var owner := owners[j];
      FilterMapSnoc(owners[..j], owner, OwnerEntry);
      assert owners[..j + 1] == owners[..j] + [owner];
      var display := if Truthy(owner.displayName) then owner.displayName else owner.emailAddress;
      var email := owner.emailAddress;
      if Truthy(display) && Truthy(email) {
        entries := entries + [display.value + " <" + email.value + ">"];
      } else if Truthy(display) {
        entries := entries + [display.value];
      }
    }
    assert owners[..|owners|] == owners;
  }

  /** `format_metadata` */
  method FormatMetadata(m: Metadata) returns (text: string)
    ensures text == ReportText(MetadataHeader, MetadataBody(m), NoMetadataLine)
  {
    var lines := [MetadataHeader];
    var keys := MetadataKeys;
    for i := 0 to |keys|
      invariant lines == [MetadataHeader] + FieldLines(m, keys[..i])
    {
      var key := keys[i];
      FilterMapSnoc(keys[..i], key, FieldEntry(m));
      assert keys[..i + 1] == keys[..i] + [key];
      if key in m.fields && m.fields[key] != [] {
        lines := lines + ["- " + key + ": " + m.fields[key]];
      }
    }
    assert keys[..|keys|] == keys;
    var owners := m.owners;
    if owners != [] {
      var ownerLines := CollectOwnerEntries(owners);
      if ownerLines != [] {
        lines := lines + ["- owners: " + Join(ownerLines, ", ")];
      }
    }
    assert lines == [MetadataHeader] + MetadataBody(m);
    if |lines| == 1 {
      lines := lines + [NoMetadataLine];
    }
    assert lines == ReportLines(MetadataHeader, MetadataBody(m), NoMetadataLine);
    text := Join(lines, "\n");
  }

  /** The owner entry in each case: "display <email>" with the display name
      falling back to the email, so an owner with only an email renders as
      "email <email>"; the bare display name for an owner without email;
      nothing for an owner with neither. The source's branch for an owner
      with an email but no display value can never be taken. */
  lemma OwnerEntryCases(o: DriveOwner)
    ensures Truthy(o.displayName) && Truthy(o.emailAddress)
            ==> OwnerEntry(o) == Some(o.displayName.value + " <" + o.emailAddress.value + ">")
    ensures !Truthy(o.displayName) && Truthy(o.emailAddress)
            ==> OwnerEntry(o) == Some(o.emailAddress.value + " <" + o.emailAddress.value + ">")
    ensures Truthy(o.displayName) && !Truthy(o.emailAddress) ==> OwnerEntry(o) == Some(o.displayName.value)
    ensures OwnerEntry(o).None? <==> !Truthy(o.displayName) && !Truthy(o.emailAddress)
    ensures Truthy(o.emailAddress) ==> Truthy(Display(o))
  {
  }

  /** The field lines follow the fixed key order: with every key present and
      non-empty, line `i` reports key `i`. */
  lemma FieldLinesInKeyOrder(m: Metadata)
    requires forall i :: 0 <= i < |MetadataKeys| ==> Truthy(FieldValue(m, MetadataKeys[i]))
    ensures |FieldLines(m, MetadataKeys)| == |MetadataKeys|
    ensures forall i :: 0 <= i < |MetadataKeys| ==>
              FieldLines(m, MetadataKeys)[i] == "- " + MetadataKeys[i] + ": " + m.fields[MetadataKeys[i]]
  {
    FilterMapAllKept(MetadataKeys, FieldEntry(m));
  }

  /** A line reports a key exactly when that key is one of the fixed keys
      and its value is present and non-empty. */
  lemma FieldLinesOnlyTruthy(m: Metadata, key: string)
    ensures key in MetadataKeys && Truthy(FieldValue(m, key))
            ==> ("- " + key + ": " + m.fields[key]) in FieldLines(m, MetadataKeys)
    ensures FieldLines(m, MetadataKeys) == [] <==>
              forall i :: 0 <= i < |MetadataKeys| ==> !Truthy(FieldValue(m, MetadataKeys[i]))
  {
    FilterMapEmpty(MetadataKeys, FieldEntry(m));
    if key in MetadataKeys && Truthy(FieldValue(m, key)) {
      var i :| 0 <= i < |MetadataKeys| && MetadataKeys[i] == key;
      FilterMapMember(MetadataKeys, FieldEntry(m), "- " + key + ": " + m.fields[key]);
      assert FieldEntry(m)(MetadataKeys[i]) == Some("- " + key + ": " + m.fields[key]);
    }
  }

  /** Every field line reports one of the fixed keys whose value is present
      and non-empty. */
  lemma FieldLinesFromTruthyKeys(m: Metadata)
    ensures forall x :: x in FieldLines(m, MetadataKeys) ==>
              exists i :: 0 <= i < |MetadataKeys| && Truthy(FieldValue(m, MetadataKeys[i]))
                          && x == "- " + MetadataKeys[i] + ": " + m.fields[MetadataKeys[i]]
  {
    forall x | x in FieldLines(m, MetadataKeys)
      ensures exists i :: 0 <= i < |MetadataKeys| && Truthy(FieldValue(m, MetadataKeys[i]))
                          && x == "- " + MetadataKeys[i] + ": " + m.fields[MetadataKeys[i]]
    {
      FilterMapMember(MetadataKeys, FieldEntry(m), x);
      var i :| 0 <= i < |MetadataKeys| && FieldEntry(m)(MetadataKeys[i]) == Some(x);
    }
  }

  /** Keys outside the fixed list never change the output. */
  lemma OtherKeysIgnored(m: Metadata, key: string, value: string)
    requires key !in MetadataKeys
    ensures MetadataBody(Metadata(m.fields[key := value], m.owners)) == MetadataBody(m)
  {
    var m' := Metadata(m.fields[key := value], m.owners);
    FieldLinesAgree(m, m', MetadataKeys);
  }

  lemma {:induction false} FieldLinesAgree(m: Metadata, m': Metadata, keys: seq<string>)
    requires forall i :: 0 <= i < |keys| ==> FieldValue(m, keys[i]) == FieldValue(m', keys[i])
    ensures FieldLines(m, keys) == FieldLines(m', keys)
  {
    if keys != [] {
      var p := keys[..|keys| - 1];
      assert forall i :: 0 <= i < |p| ==> p[i] == keys[i];
      FieldLinesAgree(m, m', p);
      assert FieldEntry(m)(keys[|keys| - 1]) == FieldEntry(m')(keys[|keys| - 1]);
    }
  }

  /** "- No metadata available." follows the header exactly when no fixed key
      has a non-empty value and no owner has a display name or an email. */
  lemma MetadataFallbackIff(m: Metadata)
    ensures MetadataBody(m) == [] <==>
              (forall i :: 0 <= i < |MetadataKeys| ==> !Truthy(FieldValue(m, MetadataKeys[i])))
              && (forall j :: 0 <= j < |m.owners| ==>
                    !Truthy(m.owners[j].displayName) && !Truthy(m.owners[j].emailAddress))
  {
    FilterMapEmpty(MetadataKeys, FieldEntry(m));
    FilterMapEmpty(m.owners, OwnerEntry);
    forall j | 0 <= j < |m.owners| {
      OwnerEntryCases(m.owners[j]);
    }
  }

  lemma MetadataHeaderIsSingleLine() ensures SingleLine(MetadataHeader) {}
  lemma NoMetadataLineIsSingleLine() ensures SingleLine(NoMetadataLine) {}

  /** The metadata text is the header, then the body lines, or exactly the
      fallback line when the body is empty. */
  lemma MetadataTextLines(m: Metadata)
    requires forall i :: 0 <= i < |MetadataBody(m)| ==> SingleLine(MetadataBody(m)[i])
    ensures var lines := Split(ReportText(MetadataHeader, MetadataBody(m), NoMetadataLine), '\n');
            && lines[0] == MetadataHeader
            && (MetadataBody(m) == [] ==> lines == [MetadataHeader, NoMetadataLine])
            && (MetadataBody(m) != [] ==> lines[1..] == MetadataBody(m))
  {
    MetadataHeaderIsSingleLine();
    NoMetadataLineIsSingleLine();
    ReportTextLines(MetadataHeader, MetadataBody(m), NoMetadataLine);
  }
}
