/** The `run` step of the Google Drive "Find Spreadsheets" action
    (components/google_drive/actions/find-spreadsheets/find-spreadsheets.mjs):
    the Drive search query it composes and the links it adds to the files found.
    An unset string prop reads here as `""`; both are falsy, so the action
    treats them alike. */
module FindSpreadsheets {
  import opened JsValues

  const SpreadsheetMimeType: string := "application/vnd.google-apps.spreadsheet"

  /** The clause every query starts from: spreadsheets only. */
  const BaseClause: string := "mimeType = '" + SpreadsheetMimeType + "'"

  const SpreadsheetUrlPrefix: string := "https://docs.google.com/spreadsheets/d/"

  function NameClause(term: string): string
  {
    " and name contains '" + term + "'"
  }

  function FolderClause(folderId: string): string
  {
    " and \"" + folderId + "\" in parents"
  }

  /** The query before trimming: a `searchQuery` wins and is used as it is
      when it already holds the base clause, else appended to it; otherwise
      the name clause and then the folder clause are appended when set. */
  function ComposeQuery(searchQuery: string, nameSearchTerm: string, folderId: string): string
  {
    var q := BaseClause;
    if searchQuery != "" then
      if Contains(searchQuery, q) then searchQuery else q + " and " + searchQuery
    else
      var q := if nameSearchTerm != "" then q + NameClause(nameSearchTerm) else q;
      if folderId != "" then q + FolderClause(folderId) else q
  }

  /** `String.prototype.trim`. */
  function Trim(s: string): (r: string)
    ensures |r| <= |s|
    ensures r != [] ==> !IsWhiteSpace(r[0]) && !IsWhiteSpace(r[|r| - 1])
  {
    if s != [] && IsWhiteSpace(s[0]) then Trim(s[1..])
    else if s != [] && IsWhiteSpace(s[|s| - 1]) then Trim(s[..|s| - 1])
    else s
  }

  /** `s[i..j]` has only white space before and after it in `s`. */
  predicate OnlyWhiteSpaceAround(s: string, i: int, j: int)
  {
    && 0 <= i <= j <= |s|
    && (forall k :: 0 <= k < i ==> IsWhiteSpace(s[k]))
    && (forall k :: j <= k < |s| ==> IsWhiteSpace(s[k]))
  }

  lemma WhiteSpaceAroundFront(s: string, i: int, j: int)
    requires s != [] && IsWhiteSpace(s[0]) && OnlyWhiteSpaceAround(s[1..], i, j)
    ensures OnlyWhiteSpaceAround(s, i + 1, j + 1) && s[1..][i..j] == s[i + 1..j + 1]
  {
    forall k | 0 <= k < i + 1 ensures IsWhiteSpace(s[k]) {
      if k > 0 {
        assert s[k] == s[1..][k - 1];
      }
    }
    forall k | j + 1 <= k < |s| ensures IsWhiteSpace(s[k]) {
      assert s[k] == s[1..][k - 1];
    }
  }

  lemma WhiteSpaceAroundBack(s: string, i: int, j: int)
    requires s != [] && IsWhiteSpace(s[|s| - 1]) && OnlyWhiteSpaceAround(s[..|s| - 1], i, j)
    ensures OnlyWhiteSpaceAround(s, i, j) && s[..|s| - 1][i..j] == s[i..j]
  {
    forall k | 0 <= k < i ensures IsWhiteSpace(s[k]) {
      assert s[k] == s[..|s| - 1][k];
    }
    forall k | j <= k < |s| ensures IsWhiteSpace(s[k]) {
      if k < |s| - 1 {
        assert s[k] == s[..|s| - 1][k];
      }
    }
  }

  /** Trimming removes exactly the white space at both ends: the result is
      a slice of the input with only white space before and after it. */
  lemma {:induction false} TrimStripsOuterWhiteSpace(s: string)
    ensures exists i, j :: OnlyWhiteSpaceAround(s, i, j) && Trim(s) == s[i..j]
  {
    if s != [] && IsWhiteSpace(s[0]) {
      TrimStripsOuterWhiteSpace(s[1..]);
      var i, j :| OnlyWhiteSpaceAround(s[1..], i, j) && Trim(s[1..]) == s[1..][i..j];
      WhiteSpaceAroundFront(s, i, j);
    } else if s != [] && IsWhiteSpace(s[|s| - 1]) {
      TrimStripsOuterWhiteSpace(s[..|s| - 1]);
      var i, j :| OnlyWhiteSpaceAround(s[..|s| - 1], i, j) && Trim(s[..|s| - 1]) == s[..|s| - 1][i..j];
      WhiteSpaceAroundBack(s, i, j);
    } else {
      assert OnlyWhiteSpaceAround(s, 0, |s|) && Trim(s) == s[0..|s|];
    }
  }

  /** The `q` passed on to the file listing. */
  function SpreadsheetQuery(searchQuery: string, nameSearchTerm: string, folderId: string): string
  {
    Trim(ComposeQuery(searchQuery, nameSearchTerm, folderId))
  }

  /** Trimming keeps an occurrence of a text that neither starts nor ends
      with white space. */
  lemma {:induction false} TrimKeepsOccurrence(s: string, t: string, i: int)
    requires |t| > 0 && !IsWhiteSpace(t[0]) && !IsWhiteSpace(t[|t| - 1])
    requires OccursAt(s, t, i)
    ensures Contains(Trim(s), t)
  {
    assert s[i] == t[0] && s[i + |t| - 1] == t[|t| - 1] by {
      assert s[i..i + |t|][0] == s[i] && s[i..i + |t|][|t| - 1] == s[i + |t| - 1];
    }
    if s != [] && IsWhiteSpace(s[0]) {
      assert i > 0;
      assert s[1..][i - 1..i - 1 + |t|] == s[i..i + |t|];
      TrimKeepsOccurrence(s[1..], t, i - 1);
    } else if s != [] && IsWhiteSpace(s[|s| - 1]) {
      assert i + |t| < |s|;
      assert s[..|s| - 1][i..i + |t|] == s[i..i + |t|];
      TrimKeepsOccurrence(s[..|s| - 1], t, i);
    } else {
      assert OccursAt(Trim(s), t, i);
    }
  }

  /** A string that neither starts nor ends with white space is its own trim. */
  lemma TrimNoop(s: string)
    requires s != [] && !IsWhiteSpace(s[0]) && !IsWhiteSpace(s[|s| - 1])
    ensures Trim(s) == s
  {
  }

  /** The query always asks for spreadsheets. */
  lemma BaseClauseAlwaysPresent(searchQuery: string, nameSearchTerm: string, folderId: string)
    ensures Contains(SpreadsheetQuery(searchQuery, nameSearchTerm, folderId), BaseClause)
  {
    assert BaseClause[0] == 'm' && BaseClause[|BaseClause| - 1] == '\'';
    var q := ComposeQuery(searchQuery, nameSearchTerm, folderId);
    if searchQuery != "" && Contains(searchQuery, BaseClause) {
      var i :| 0 <= i <= |searchQuery| - |BaseClause| && OccursAt(searchQuery, BaseClause, i);
      TrimKeepsOccurrence(q, BaseClause, i);
    } else {
      assert q[0..|BaseClause|] == BaseClause;
      TrimKeepsOccurrence(q, BaseClause, 0);
    }
  }

  /** A `searchQuery` holding the base clause is used verbatim (trimmed); any
      other is appended to the base clause with `and`. */
  lemma SearchQueryUse(searchQuery: string, nameSearchTerm: string, folderId: string)
    requires searchQuery != ""
    ensures Contains(searchQuery, BaseClause) ==>
              SpreadsheetQuery(searchQuery, nameSearchTerm, folderId) == Trim(searchQuery)
    ensures !Contains(searchQuery, BaseClause) ==>
              SpreadsheetQuery(searchQuery, nameSearchTerm, folderId) == Trim(BaseClause + " and " + searchQuery)
  {
  }

  /** With a `searchQuery`, the name and the folder have no effect. */
  lemma SearchQueryPrecedence(searchQuery: string, name1: string, folder1: string, name2: string, folder2: string)
    requires searchQuery != ""
    ensures SpreadsheetQuery(searchQuery, name1, folder1) == SpreadsheetQuery(searchQuery, name2, folder2)
  {
  }

  /** Without a `searchQuery`: the base clause, then the name clause when a
      name is given, then the folder clause when a folder is given; trimming
      changes nothing here. */
  lemma {:induction false} ClauseOrder(nameSearchTerm: string, folderId: string)
    ensures SpreadsheetQuery("", nameSearchTerm, folderId) ==
              BaseClause + (if nameSearchTerm != "" then NameClause(nameSearchTerm) else "")
                         + (if folderId != "" then FolderClause(folderId) else "")
  {
    var q := BaseClause + (if nameSearchTerm != "" then NameClause(nameSearchTerm) else "")
                        + (if folderId != "" then FolderClause(folderId) else "");
    assert q == ComposeQuery("", nameSearchTerm, folderId);
    assert q[0] == BaseClause[0] == 'm';
    if folderId != "" {
      assert q[|q| - 1] == FolderClause(folderId)[|FolderClause(folderId)| - 1] == 's';
    } else if nameSearchTerm != "" {
      assert q[|q| - 1] == NameClause(nameSearchTerm)[|NameClause(nameSearchTerm)| - 1] == '\'';
    } else {
      assert q[|q| - 1] == BaseClause[|BaseClause| - 1] == '\'';
    }
    TrimNoop(q);
  }

  /** `https://docs.google.com/spreadsheets/d/${file.id}`. */
  function SpreadsheetUrl(file: Props): string
  {
    SpreadsheetUrlPrefix + ToStr(Prop(file, "id"))
  }

  /** `files.map((file) => ({ ...file, url }))`: every file keeps its other
      fields, in order, and gains (or has replaced) `url`. */
  function DecorateFiles(files: seq<Props>): (r: seq<Props>)
    ensures |r| == |files|
    ensures forall i :: 0 <= i < |r| ==> Lookup(r[i], "url") == Some(Str(SpreadsheetUrl(files[i])))
    ensures forall i, k :: 0 <= i < |r| && k != "url" ==> Lookup(r[i], k) == Lookup(files[i], k)
  {
    seq(|files|, i requires 0 <= i < |files| => Put(files[i], "url", Str(SpreadsheetUrl(files[i]))))
  }

  /** `run`: list with the composed query, export the `$summary` (the number
      of files found), return the decorated files. The listing is the Drive API's and is a parameter. */
  function Run(searchQuery: string, nameSearchTerm: string, folderId: string,
               listFiles: string -> seq<Props>): (r: (string, seq<Props>))
    ensures var files := listFiles(SpreadsheetQuery(searchQuery, nameSearchTerm, folderId));
            && r.0 == "Successfully found " + NatToDecimal(|files|) + " spreadsheet(s)"
            && |r.1| == |files|
            && (forall i :: 0 <= i < |r.1| ==> Lookup(r.1[i], "url") == Some(Str(SpreadsheetUrl(files[i]))))
            && (forall i, k :: 0 <= i < |r.1| && k != "url" ==> Lookup(r.1[i], k) == Lookup(files[i], k))
  {
    var files := listFiles(SpreadsheetQuery(searchQuery, nameSearchTerm, folderId));
    ("Successfully found " + NatToDecimal(|files|) + " spreadsheet(s)", DecorateFiles(files))
  }
}
