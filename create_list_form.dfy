/** The list-creation form (app/dashboard/lists/components/CreateListForm.tsx):
    a list name, an optional description, and either a list of links or one
    uploaded file. Submitting validates the fields into an errors record,
    assembles a FormData and calls the `createCompanyList` server action. */
module CreateListForm {
  import opened Wrappers
  import opened JsText
  import opened WebForm
  import opened SchemaRows
  import opened Tables
  import ListActions
  import LinkInput

  const NameRequired := "リスト名を入力してください。"
  const LinksRequired := "少なくとも1つのリンクを入力してください。"
  const InvalidUrl := "無効なURLが含まれています。"
  const FileRequired := "ファイルを選択してください。"
  const SubmitFailed := "リスト作成中にエラーが発生しました。"
  const Created := "リストが正常に作成されました！"

  /** Whether the companies come from links or from an uploaded file. */
  datatype InputMode = ByLink | ByFile

  /** How the awaited server action settles: it throws, it returns nothing
      (reading `.success` of undefined then throws), or it returns an object
      whose `success` flag is the given one. */
  datatype ActionReply = Rejected | ReturnedNothing | Returned(success: bool)

  /** `link.trim() !== ''`. */
  predicate Filled(link: string) {
    Trim(link) != []
  }

  /** `links.filter(link => link.trim() !== '')`. */
  function ValidLinks(links: seq<string>): seq<string> {
    if links == [] then []
    else (if Filled(links[0]) then [links[0]] else []) + ValidLinks(links[1..])
  }

  /** Every link of the list can be parsed by `new URL`. */
  predicate AllParse(links: seq<string>, parses: string -> bool) {
    forall i :: 0 <= i < |links| ==> parses(links[i])
  }

  /** The errors record `validateForm` builds. */
  function ValidationErrors(listName: string, mode: InputMode, links: seq<string>, file: Option<File>,
                            parses: string -> bool): map<string, string> {
    var named := if Trim(listName) == [] then map["listName" := NameRequired] else map[];
    match mode
    case ByLink =>
      var valid := ValidLinks(links);
      if valid == [] then named["links" := LinksRequired]
      else if AllParse(valid, parses) then named
      else named["links" := InvalidUrl]
    case ByFile =>
      if file.None? then named["file" := FileRequired] else named
  }

  /** The entries appended for the given links, one "links" entry each. */
  function LinkEntries(links: seq<string>): (r: FormData)
    ensures |r| == |links|
  {
    seq(|links|, i requires 0 <= i < |links| => ("links", Text(links[i])))
  }

  /** The FormData `handleCreateList` sends: name and description, then the
      non-blank links in link mode, or the file in file mode when there is
      one. */
  function Submission(listName: string, description: string, mode: InputMode, links: seq<string>,
                      file: Option<File>): FormData {
    var base := [("name", Text(listName)), ("description", Text(description))];
    match mode
    case ByLink => base + LinkEntries(ValidLinks(links))
    case ByFile => if file.Some? then base + [("file", Blob(file.value))] else base
  }

  function Texts(links: seq<string>): (r: seq<FormValue>)
    ensures |r| == |links| && forall i :: 0 <= i < |links| ==> r[i] == Text(links[i])
  {
    seq(|links|, i requires 0 <= i < |links| => Text(links[i]))
  }

  // ---------------------------------------------------------------------
  // The link filter
  // ---------------------------------------------------------------------

  /** A link counts exactly when it is not all whitespace. */
  lemma FilledIffNotBlank(link: string)
    ensures Filled(link) <==> !IsBlank(link)
  {
    TrimmedEmptyIffBlank(link);
  }

  /** The filter works piecewise: the links kept from a concatenation are
      those kept from each part, in order. With `ValidLinksSingle` this pins
      it down as the order-preserving filter of the non-blank links. */
  lemma {:induction false} ValidLinksConcat(a: seq<string>, b: seq<string>)
    ensures ValidLinks(a + b) == ValidLinks(a) + ValidLinks(b)
  {
    if a != [] {
      assert (a + b)[0] == a[0] && (a + b)[1..] == a[1..] + b;
      ValidLinksConcat(a[1..], b);
    } else {
      assert a + b == b;
    }
  }

  /** A single link is kept exactly when it is not blank. */
  lemma ValidLinksSingle(link: string)
    ensures ValidLinks([link]) == if IsBlank(link) then [] else [link]
  {
    FilledIffNotBlank(link);
    assert [link][1..] == [];
  }

  /** The kept links are the non-blank links of the list. */
  lemma {:induction false} ValidLinksMembers(links: seq<string>)
    ensures forall l :: l in ValidLinks(links) <==> l in links && !IsBlank(l)
  {
    if links != [] {
      ValidLinksMembers(links[1..]);
      FilledIffNotBlank(links[0]);
      assert links == [links[0]] + links[1..];
    }
  }

  // ---------------------------------------------------------------------
  // Properties of the validation
  // ---------------------------------------------------------------------

  /** The form is valid exactly when the name is not blank and, in link mode,
      some link is not blank and every non-blank link parses as a URL, or, in
      file mode, a file is chosen. */
  lemma ValidExactlyWhen(listName: string, mode: InputMode, links: seq<string>, file: Option<File>,
                         parses: string -> bool)
    ensures ValidationErrors(listName, mode, links, file, parses) == map[] <==>
      && !IsBlank(listName)
      && (mode == ByLink ==>
            && (exists i :: 0 <= i < |links| && !IsBlank(links[i]))
            && forall i :: 0 <= i < |links| && !IsBlank(links[i]) ==> parses(links[i]))
      && (mode == ByFile ==> file.Some?)
  {
    FilledIffNotBlank(listName);
    var named: map<string, string> := if Trim(listName) == [] then map["listName" := NameRequired] else map[];
    assert named == map[] <==> !IsBlank(listName) by {
      assert "listName" in named <==> IsBlank(listName);
    }
    if mode == ByLink {
      NoneKeptIffAllBlank(links);
      AllKeptParseIff(links, parses);
      var e := ValidationErrors(listName, mode, links, file, parses);
      if ValidLinks(links) == [] || !AllParse(ValidLinks(links), parses) {
        assert "links" in e;
      }
    } else if file.None? {
      assert "file" in ValidationErrors(listName, mode, links, file, parses);
    }
  }

  /** No link is kept exactly when every link is blank. */
  lemma NoneKeptIffAllBlank(links: seq<string>)
    ensures ValidLinks(links) == [] <==> forall i :: 0 <= i < |links| ==> IsBlank(links[i])
  {
    ValidLinksMembers(links);
    var valid := ValidLinks(links);
    if valid != [] {
      assert valid[0] in valid;
    }
    if exists i :: 0 <= i < |links| && !IsBlank(links[i]) {
      var i :| 0 <= i < |links| && !IsBlank(links[i]);
      assert links[i] in links;
    }
  }

  /** The kept links all parse exactly when every non-blank link parses. */
  lemma AllKeptParseIff(links: seq<string>, parses: string -> bool)
    ensures AllParse(ValidLinks(links), parses) <==>
      forall i :: 0 <= i < |links| && !IsBlank(links[i]) ==> parses(links[i])
  {
    ValidLinksMembers(links);
    var valid := ValidLinks(links);
    if AllParse(valid, parses) {
      forall i | 0 <= i < |links| && !IsBlank(links[i])
        ensures parses(links[i])
      {
        assert links[i] in valid;
        var j :| 0 <= j < |valid| && valid[j] == links[i];
      }
    }
    if forall i :: 0 <= i < |links| && !IsBlank(links[i]) ==> parses(links[i]) {
      forall j | 0 <= j < |valid|
        ensures parses(valid[j])
      {
        assert valid[j] in valid;
        var i :| 0 <= i < |links| && links[i] == valid[j];
      }
    }
  }

  /** When the form reports an invalid URL, the link editor already shows
      the warning under some row: every link the URL check can reject is
      non-empty. */
  lemma InvalidUrlIsFlagged(listName: string, links: seq<string>, file: Option<File>, parses: string -> bool)
    requires var e := ValidationErrors(listName, ByLink, links, file, parses);
      "links" in e && e["links"] == InvalidUrl
    ensures exists i :: 0 <= i < |links| && LinkInput.Flagged(links[i], parses)
  {
    assert LinksRequired != InvalidUrl by {
      assert LinksRequired[0] != InvalidUrl[0];
    }
    var valid := ValidLinks(links);
    ValidLinksMembers(links);
    var j :| 0 <= j < |valid| && !parses(valid[j]);
    assert valid[j] in valid;
    var i :| 0 <= i < |links| && links[i] == valid[j];
    assert LinkInput.Flagged(links[i], parses);
  }

  /** Which errors can be reported: the name error exactly for a blank name,
      the links error only in link mode and the file error only in file mode
      (the name error and either of the others can come together), and the
      links error says "at least one link" exactly when no link is filled. */
  lemma ErrorsFollowMode(listName: string, mode: InputMode, links: seq<string>, file: Option<File>,
                         parses: string -> bool)
    ensures var e := ValidationErrors(listName, mode, links, file, parses);
      && ("listName" in e <==> IsBlank(listName))
      && ("listName" in e ==> e["listName"] == NameRequired)
      && ("links" in e ==> mode == ByLink)
      && ("file" in e <==> mode == ByFile && file.None?)
      && ("file" in e ==> e["file"] == FileRequired)
      && "submit" !in e
      && (mode == ByLink ==>
            && ("links" in e && e["links"] == LinksRequired <==>
                forall i :: 0 <= i < |links| ==> IsBlank(links[i]))
            && ("links" in e ==> e["links"] in {LinksRequired, InvalidUrl}))
  {
    FilledIffNotBlank(listName);
    ValidLinksMembers(links);
    var valid := ValidLinks(links);
    assert LinksRequired != InvalidUrl by {
      assert LinksRequired[0] != InvalidUrl[0];
    }
    if mode == ByLink && valid != [] {
      assert valid[0] in valid;
    }
    if mode == ByLink && exists i :: 0 <= i < |links| && !IsBlank(links[i]) {
      var i :| 0 <= i < |links| && !IsBlank(links[i]);
      assert links[i] in links;
    }
  }

  /** The FormData handed to the action: name and description come first,
      the links entries are exactly the non-blank links in their order (none
      in file mode), the file entry is the chosen file (none in link mode),
      and there is never a "companies" entry. */
  lemma SubmissionCarriesForm(listName: string, description: string, mode: InputMode, links: seq<string>,
                              file: Option<File>)
    ensures var s := Submission(listName, description, mode, links, file);
      && Get(s, "name") == Some(Text(listName))
      && Get(s, "description") == Some(Text(description))
      && GetAll(s, "links") == (if mode == ByLink then Texts(ValidLinks(links)) else [])
      && Get(s, "file") == (if mode == ByFile && file.Some? then Some(Blob(file.value)) else None)
      && Get(s, "companies") == None
  {
    if mode == ByLink {
      LinkSubmission(listName, description, links);
    } else if file.Some? {
      FileSubmission(listName, description, links, file.value);
    } else {
      var s := Submission(listName, description, mode, links, file);
      BaseComesFirst(listName, description, [], "links");
      BaseComesFirst(listName, description, [], "file");
      BaseComesFirst(listName, description, [], "companies");
      assert s == [("name", Text(listName)), ("description", Text(description))] + [];
    }
  }

  lemma LinkSubmission(listName: string, description: string, links: seq<string>)
    ensures var s := Submission(listName, description, ByLink, links, None);
      && Get(s, "name") == Some(Text(listName))
      && Get(s, "description") == Some(Text(description))
      && GetAll(s, "links") == Texts(ValidLinks(links))
      && Get(s, "file") == None
      && Get(s, "companies") == None
  {
    var entries := LinkEntries(ValidLinks(links));
    LinkEntriesAreLinks(ValidLinks(links));
    LinkEntriesOnlyLinks(ValidLinks(links), "file");
    LinkEntriesOnlyLinks(ValidLinks(links), "companies");
    BaseComesFirst(listName, description, entries, "links");
    BaseComesFirst(listName, description, entries, "file");
    BaseComesFirst(listName, description, entries, "companies");
  }

  lemma FileSubmission(listName: string, description: string, links: seq<string>, f: File)
    ensures var s := Submission(listName, description, ByFile, links, Some(f));
      && Get(s, "name") == Some(Text(listName))
      && Get(s, "description") == Some(Text(description))
      && GetAll(s, "links") == []
      && Get(s, "file") == Some(Blob(f))
      && Get(s, "companies") == None
  {
    var entries: FormData := [("file", Blob(f))];
    assert GetAll(entries, "links") == [] by {
      assert entries[1..] == [];
    }
    BaseComesFirst(listName, description, entries, "links");
    BaseComesFirst(listName, description, entries, "file");
    BaseComesFirst(listName, description, entries, "companies");
  }

  /** Name and description lead the FormData; any other key is read from
      the entries after them. */
  lemma BaseComesFirst(listName: string, description: string, rest: FormData, key: string)
    requires key != "name" && key != "description"
    ensures var s := [("name", Text(listName)), ("description", Text(description))] + rest;
      && Get(s, "name") == Some(Text(listName))
      && Get(s, "description") == Some(Text(description))
      && Get(s, key) == Get(rest, key)
      && GetAll(s, key) == GetAll(rest, key)
  {
    var s := [("name", Text(listName)), ("description", Text(description))] + rest;
    assert s[1..][1..] == rest;
  }

  lemma LinkEntriesOnlyLinks(links: seq<string>, key: string)
    requires key != "links"
    ensures Get(LinkEntries(links), key) == None
  {
    var entries := LinkEntries(links);
    assert forall i :: 0 <= i < |entries| ==> entries[i].0 == "links";
  }

  lemma {:induction false} LinkEntriesAreLinks(links: seq<string>)
    ensures GetAll(LinkEntries(links), "links") == Texts(links)
  {
    if links != [] {
      var e := LinkEntries(links);
      assert e[1..] == LinkEntries(links[1..]);
      LinkEntriesAreLinks(links[1..]);
      assert Texts(links) == [Text(links[0])] + Texts(links[1..]);
    }
  }

  /** The form as the client builds it never reaches the database: it has
      no "companies" entry, so `createCompanyList` throws before its try
      block — as written and with the corrected redirect alike. */
  lemma SubmissionIsRefused(db: Db, user: Option<ListActions.AuthUser>, listName: string, description: string,
                            mode: InputMode, links: seq<string>, file: Option<File>,
                            parse: string -> ListActions.Parsed, newId: nat -> Uuid, now: Timestamp)
    ensures var s := Submission(listName, description, mode, links, file);
      var thrown := ListActions.Threw(if user.None? then ListActions.NotAuthenticated else ListActions.MissingFields);
      && ListActions.Submitted(db, user, s, parse, newId, now) == (db, thrown)
      && ListActions.AsWritten(db, user, s, parse, newId, now) == (db, thrown)
  {
    var s := Submission(listName, description, mode, links, file);
    SubmissionCarriesForm(listName, description, mode, links, file);
    ListActions.RefusedBeforeAnyWrite(db, user, s, parse, newId, now);
  }

  // ---------------------------------------------------------------------
  // The component state
  // ---------------------------------------------------------------------

  class ListForm {
    var inputMode: InputMode
    var links: seq<string>
    var file: Option<File>
    var listName: string
    var description: string
    var isLoading: bool
    var errors: map<string, string>

    /** The link editor always shows at least one row. */
    predicate Valid()
      reads this
    {
      links != []
    }

    /** The initial state: link mode, one empty link, no file, empty texts,
        not loading, no errors. */
    constructor()
      ensures Valid()
      ensures inputMode == ByLink && links == [""] && file == None
      ensures listName == "" && description == "" && !isLoading && errors == map[]
    {
      inputMode := ByLink;
      links := [""];
      file := None;
      listName := "";
      description := "";
      isLoading := false;
      errors := map[];
    }

    /** `validateForm`: writes the errors record and reports whether it is
        empty. In link mode the links are scanned in order and the scan stops
        at the first one `new URL` rejects. */
    method ValidateForm(parses: string -> bool) returns (valid: bool)
      modifies `errors
      ensures errors == ValidationErrors(listName, inputMode, links, file, parses)
      ensures valid <==> errors == map[]
    {
      var newErrors: map<string, string> := map[];
      if Trim(listName) == [] {
        newErrors := newErrors["listName" := NameRequired];
      }
      if inputMode == ByLink {
        var validLinks := ValidLinks(links);
        if validLinks == [] {
          newErrors := newErrors["links" := LinksRequired];
        } else {
          var i := 0;
          while i < |validLinks|
            invariant 0 <= i <= |validLinks|
            invariant AllParse(validLinks[..i], parses)
          {
            if !parses(validLinks[i]) {
              newErrors := newErrors["links" := InvalidUrl];
              break;
            }
            i := i + 1;
          }
          assert i == |validLinks| ==> validLinks[..i] == validLinks;
        }
      } else {
        if file.None? {
          newErrors := newErrors["file" := FileRequired];
        }
      }
      assert newErrors == ValidationErrors(listName, inputMode, links, file, parses);
      errors := newErrors;
      valid := |errors.Keys| == 0;
      assert valid <==> errors == map[] by {
        if errors != map[] {
          var k :| k in errors;
          assert k in errors.Keys;
        }
      }
    }

    /** `handleCreateList`: an invalid form only shows its errors. A valid
        one is sent; on `success` the form is reset and the alert shown, a
        thrown action (or a missing result) sets only the submit error, and
        loading ends in every case. */
    method HandleCreateList(parses: string -> bool, reply: ActionReply)
      returns (sent: Option<FormData>, alert: Option<string>)
      requires Valid()
      modifies this
      ensures Valid()
      ensures inputMode == old(inputMode)
      ensures var v := old(ValidationErrors(listName, inputMode, links, file, parses));
        v != map[] ==>
          && sent == None && alert == None && errors == v
          && links == old(links) && file == old(file) && listName == old(listName)
          && description == old(description) && isLoading == old(isLoading)
      ensures old(ValidationErrors(listName, inputMode, links, file, parses)) == map[] ==>
          && sent == Some(old(Submission(listName, description, inputMode, links, file)))
          && !isLoading
          && (reply == Returned(true) ==>
                && listName == "" && description == "" && links == [""] && file == None
                && errors == map[] && alert == Some(Created))
          && (reply != Returned(true) ==>
                && listName == old(listName) && description == old(description)
                && links == old(links) && file == old(file) && alert == None
                && errors == (if reply == Returned(false) then map[] else map["submit" := SubmitFailed]))
    {
      sent := None;
      alert := None;
      var valid := ValidateForm(parses);
      if !valid {
        return;
      }
      isLoading := true;
      errors := map[];
      var formData := BuildSubmission(listName, description, inputMode, links, file);
      sent := Some(formData);
      if reply.Returned? {
        if reply.success {
          listName := "";
          description := "";
          links := [""];
          file := None;
          errors := map[];
          alert := Some(Created);
        }
      } else {
        errors := map["submit" := SubmitFailed];
      }
      isLoading := false;
    }
  }

  /** Builds the FormData entry by entry, appending one "links" entry per
      non-blank link. */
  method BuildSubmission(listName: string, description: string, mode: InputMode, links: seq<string>,
                         file: Option<File>) returns (formData: FormData)
    ensures formData == Submission(listName, description, mode, links, file)
  {
    formData := [];
    formData := Append(formData, "name", Text(listName));
    formData := Append(formData, "description", Text(description));
    if mode == ByLink {
      var valid := ValidLinks(links);
      var base := formData;
      var i := 0;
      while i < |valid|
        invariant 0 <= i <= |valid|
        invariant formData == base + LinkEntries(valid[..i])
      {
        assert LinkEntries(valid[..i + 1]) == LinkEntries(valid[..i]) + [("links", Text(valid[i]))];
        formData := Append(formData, "links", Text(valid[i]));
        i := i + 1;
      }
      assert valid[..i] == valid;
    } else if file.Some? {
      formData := Append(formData, "file", Blob(file.value));
    }
  }
}
