/** The CSV export of src/app/api/export/csv/route.ts: the sign-in and pro-tier gate,
    the French status labels, the quoting of text fields, and the assembly of the
    semicolon-separated document with its byte-order mark. The query results, the
    date rendering (`toLocaleDateString("fr-FR")`) and the clock are parameters. */
module CsvExport {
  import opened Types
  import opened Strings
  import opened Constants

  /** The byte-order mark put in front of the document for spreadsheet programs. */
  const Bom: string := "\U{FEFF}"

  /** The header labels, in column order. */
  const Headers: seq<string> := ["Entreprise", "Poste", "Statut", "Date candidature", "URL", "Notes", "Créé le"]

  /** `statusLabels[k]`: the French label of a status key. */
  function StatusLabel(k: string): (r: Option<string>)
    ensures r.Some? <==> ValidStatus(k)
  {
    if k == "todo" then Some("À postuler")
    else if k == "applied" then Some("Candidature envoyée")
    else if k == "followup" then Some("Relance envoyée")
    else if k == "interview" then Some("Entretien")
    else if k == "offer" then Some("Offre reçue")
    else if k == "rejected" then Some("Refusé")
    else None
  }

  /** `s.replace(/"/g, '""')` */
  function DoubleQuotes(s: string): string {
    ReplaceChar(s, '"', "\"\"")
  }

  /** `s.replace(/\n/g, " ")` */
  function FlattenNewlines(s: string): string {
    ReplaceChar(s, '\n', " ")
  }

  /** A text field: the value between double quotes, its own double quotes doubled. */
  function Quoted(s: string): string {
    "\"" + DoubleQuotes(s) + "\""
  }

  /** The notes field: quotes doubled first, then every line feed turned into a space. */
  function NotesCell(notes: Option<string>): string {
    "\"" + FlattenNewlines(DoubleQuotes(OrElse(notes, ""))) + "\""
  }

  /** The status field: the label between quotes, or the stored text itself (not escaped)
      when it has no label. */
  function StatusCell(status: string): string {
    "\"" + StatusLabel(status).GetOr(status) + "\""
  }

  /** The fields of one application's line. */
  function Row(app: Application, localeDate: string -> string): (r: seq<string>)
    ensures |r| == |Headers| == 7
    ensures r[0] == Quoted(app.company) && r[1] == Quoted(app.role) && r[4] == Quoted(OrElse(app.url, ""))
    ensures r[2] == StatusCell(app.status) && r[5] == NotesCell(app.notes)
    ensures r[3] == "" <== !Truthy(app.appliedAt)
    ensures Truthy(app.appliedAt) ==> r[3] == localeDate(app.appliedAt.value)
    ensures r[6] == localeDate(app.createdAt)
  {
    [ Quoted(app.company),
      Quoted(app.role),
      StatusCell(app.status),
      if Truthy(app.appliedAt) then localeDate(app.appliedAt.value) else "",
      Quoted(OrElse(app.url, "")),
      NotesCell(app.notes),
      localeDate(app.createdAt) ]
  }

  /** One line of the document: the fields joined by `;`. */
  function Line(app: Application, localeDate: string -> string): string {
    Join(";", Row(app, localeDate))
  }

  /** The header line. */
  function HeaderLine(): string {
    Join(";", Headers)
  }

  /** The data lines, in the order of the query's rows. */
  function Lines(apps: seq<Application>, localeDate: string -> string): seq<string> {
    seq(|apps|, i requires 0 <= i < |apps| => Line(apps[i], localeDate))
  }

  /** The document: the byte-order mark, then the header line and one line per
      application, separated by line feeds. */
  function Document(apps: seq<Application>, localeDate: string -> string): string {
    Assemble(HeaderLine(), Lines(apps, localeDate))
  }

  /** The byte-order mark, then the header and the lines, separated by line feeds. */
  function Assemble(header: string, lines: seq<string>): string {
    Bom + Join("\n", [header] + lines)
  }

  /** With no applications the document is the mark and the header line, and the header
      line splits back into the seven labels. */
  lemma DocumentOfNoApplications(localeDate: string -> string)
    ensures Document([], localeDate) == Bom + HeaderLine()
    ensures SplitOn(HeaderLine(), ';') == Headers
  {
    assert Lines([], localeDate) == [];
    AssembleNothing(HeaderLine());
    HeaderSplitsBack();
  }

  /** A document without lines is the mark and the header. */
  lemma AssembleNothing(h: string)
    ensures Assemble(h, []) == Bom + h
  {
    assert [h] + [] == [h];
  }

  /** No label holds the separator, so the header line splits back into the labels. */
  lemma HeaderSplitsBack()
    ensures SplitOn(HeaderLine(), ';') == Headers
  {
    forall i | 0 <= i < |Headers| ensures ';' !in Headers[i] {
    }
    SplitJoin(Headers, ';');
  }

  /** One more application appends a line feed and its line: the document is the header
      followed by the applications' lines in query order. */
  lemma {:induction false} DocumentAppend(apps: seq<Application>, app: Application, localeDate: string -> string)
    ensures Document(apps + [app], localeDate) == Document(apps, localeDate) + "\n" + Line(app, localeDate)
  {
    LinesSnoc(apps, app, localeDate);
    AssembleSnoc(HeaderLine(), Lines(apps, localeDate), Line(app, localeDate));
  }

  /** Appending a line to an assembled document appends a line feed and the line. */
  lemma AssembleSnoc(h: string, ls: seq<string>, x: string)
    ensures Assemble(h, ls + [x]) == Assemble(h, ls) + "\n" + x
  {
    assert [h] + (ls + [x]) == ([h] + ls) + [x];
    JoinSnoc("\n", [h] + ls, x);
  }

  lemma LinesSnoc(apps: seq<Application>, app: Application, localeDate: string -> string)
    ensures Lines(apps + [app], localeDate) == Lines(apps, localeDate) + [Line(app, localeDate)]
  {
    var l := Lines(apps + [app], localeDate);
    var r := Lines(apps, localeDate) + [Line(app, localeDate)];
    assert |l| == |r|;
    forall i | 0 <= i < |l| ensures l[i] == r[i] {
      if i < |apps| {
        assert (apps + [app])[i] == apps[i];
      }
    }
  }

  /** Reads a quoted field back: strips the outer quotes and undoes the doubling; `None`
      when the text is not a well-formed quoted field. */
  function Unquote(field: string): Option<string> {
    if |field| >= 2 && field[0] == '"' && field[|field| - 1] == '"' then Undouble(field[1..|field| - 1]) else None
  }

  /** Undoes the doubling of quotes; `None` on a lone quote. */
  function Undouble(t: string): Option<string> {
    if |t| == 0 then Some("")
    else if t[0] == '"' then
      if |t| >= 2 && t[1] == '"' then
        match Undouble(t[2..])
        case Some(rest) => Some("\"" + rest)
        case None => None
      else None
    else
      match Undouble(t[1..])
      case Some(rest) => Some([t[0]] + rest)
      case None => None
  }

  /** Undoing the doubling recovers the original text. */
  lemma {:induction false} UndoubleRoundTrip(s: string)
    ensures Undouble(DoubleQuotes(s)) == Some(s)
    decreases |s|
  {
    if |s| > 0 {
      var t := DoubleQuotes(s);
      assert t == (if s[0] == '"' then "\"\"" else [s[0]]) + DoubleQuotes(s[1..]);
      UndoubleRoundTrip(s[1..]);
      if s[0] == '"' {
        assert t[2..] == DoubleQuotes(s[1..]);
        assert s == "\"" + s[1..];
      } else {
        assert t[1..] == DoubleQuotes(s[1..]);
        assert s == [s[0]] + s[1..];
      }
    }
  }

  /** A quoted field reads back as the original text. */
  lemma QuotedRoundTrip(s: string)
    ensures Unquote(Quoted(s)) == Some(s)
  {
    var q := Quoted(s);
    assert q[1..|q| - 1] == DoubleQuotes(s);
    UndoubleRoundTrip(s);
  }

  /** Doubling quotes and flattening line feeds touch different characters, so their
      order does not matter. */
  lemma {:induction false} DoubleAndFlattenCommute(s: string)
    ensures FlattenNewlines(DoubleQuotes(s)) == DoubleQuotes(FlattenNewlines(s))
    decreases |s|
  {
    if |s| > 0 {
      DoubleAndFlattenCommute(s[1..]);
      ReplaceCharOfConcat(if s[0] == '"' then "\"\"" else [s[0]], DoubleQuotes(s[1..]), '\n', " ");
      ReplaceCharOfConcat(if s[0] == '\n' then " " else [s[0]], FlattenNewlines(s[1..]), '"', "\"\"");
    }
  }

  /** Replacing a character distributes over concatenation. */
  lemma {:induction false} ReplaceCharOfConcat(a: string, b: string, c: char, rep: string)
    ensures ReplaceChar(a + b, c, rep) == ReplaceChar(a, c, rep) + ReplaceChar(b, c, rep)
    decreases |a|
  {
    if |a| == 0 {
      assert a + b == b;
    } else {
      assert (a + b)[1..] == a[1..] + b;
      ReplaceCharOfConcat(a[1..], b, c, rep);
    }
  }

  /** The notes field holds no line feed, and reads back as the notes (`""` when absent)
      with every line feed replaced by a space. */
  lemma NotesCellIsOneLine(notes: Option<string>)
    ensures '\n' !in NotesCell(notes)
    ensures Unquote(NotesCell(notes)) == Some(FlattenNewlines(OrElse(notes, "")))
  {
    var n := OrElse(notes, "");
    DoubleAndFlattenCommute(n);
    assert NotesCell(notes) == Quoted(FlattenNewlines(n));
    QuotedRoundTrip(FlattenNewlines(n));
  }

  /** The other text fields are not flattened: a line feed in a company name stays. */
  lemma CompanyKeepsLineFeeds()
    ensures '\n' in Quoted("A\nB")
  {
    assert Quoted("A\nB")[2] == '\n';
  }

  /** A company such as `He said "Hi"` is written as `"He said ""Hi"""`: each quote
      inside is doubled and the whole is wrapped in one more pair. */
  lemma QuotesInsideAreDoubled(a: string, b: string)
    requires '"' !in a && '"' !in b
    ensures Quoted(a + "\"" + b + "\"") == "\"" + a + "\"\"" + b + "\"\"" + "\""
  {
    QuoteDoubledAfter(a, b);
  }

  /** The inner text of the field above: both quotes doubled, `a` and `b` untouched. */
  lemma QuoteDoubledAfter(a: string, b: string)
    requires '"' !in a && '"' !in b
    ensures DoubleQuotes(a + "\"" + b + "\"") == a + "\"\"" + b + "\"\""
  {
    var q := "\"";
    var dq := "\"\"";
    assert DoubleQuotes(q) == dq by {
      assert q[1..] == "";
    }
    assert DoubleQuotes(a + q) == a + dq by {
      ReplaceAbsentChar(a, '"', dq);
      ReplaceCharOfConcat(a, q, '"', dq);
    }
    assert DoubleQuotes(a + q + b) == a + dq + b by {
      ReplaceAbsentChar(b, '"', dq);
      ReplaceCharOfConcat(a + q, b, '"', dq);
    }
    ReplaceCharOfConcat(a + q + b, q, '"', dq);
  }

  /** Replacing a character that does not occur changes nothing. */
  lemma {:induction false} ReplaceAbsentChar(s: string, c: char, rep: string)
    requires c !in s
    ensures ReplaceChar(s, c, rep) == s
    decreases |s|
  {
    if |s| > 0 {
      ReplaceAbsentChar(s[1..], c, rep);
      assert s == [s[0]] + s[1..];
    }
  }

  /** The result of the applications query: an error, or the rows (null possible). */
  datatype QueryResult = QueryFailed | QueryRows(rows: Option<seq<Application>>)

  /** The route's answer. */
  datatype ExportResponse =
    | Unauthorized401
    | ProRequired403
    | ExportFailed500
    | CsvFile(body: string, fileName: string)

  /** The attachment name: `candipilot_export_` and the date part of the ISO clock reading. */
  function FileName(isoNow: string): string {
    "candipilot_export_" + DatePart(isoNow) + ".csv"
  }

  /** `iso.split("T")[0]`: the text before the first `T`. */
  function DatePart(iso: string): (r: string)
    ensures |r| <= |iso| && r == iso[..|r|] && 'T' !in r
    ensures |r| < |iso| ==> iso[|r|] == 'T'
  {
    if |iso| == 0 || iso[0] == 'T' then "" else [iso[0]] + DatePart(iso[1..])
  }

  /** What `supabase.auth.getUser()` gave the route: it threw (as can `createClient`
      before it, inside the same `try`), or it answered with a user or none. */
  datatype AuthLookup = AuthThrew | AuthAnswered(user: Option<string>)

  /** `GET /api/export/csv`. `profile` is the tier of the `users` row, if any. */
  function Export(auth: AuthLookup, profile: Option<Tier>, query: QueryResult,
                  localeDate: string -> string, isoNow: string): (r: ExportResponse)
    ensures r == Unauthorized401 <==> auth == AuthAnswered(None)
    ensures r == ProRequired403 <==> auth.AuthAnswered? && auth.user.Some? && profile != Some(Pro)
    ensures r == ExportFailed500 <==>
      auth.AuthThrew? || (auth.user.Some? && profile == Some(Pro) && query.QueryFailed?)
    ensures r.CsvFile? ==> query.QueryRows? && r.body == Document(query.rows.GetOr([]), localeDate)
    ensures r.CsvFile? ==> auth.AuthAnswered? && auth.user.Some? && r.fileName == FileName(isoNow)
  {
    match auth
      case AuthThrew => ExportFailed500
      case AuthAnswered(user) =>
        if user.None? then Unauthorized401
        else if profile != Some(Pro) then ProRequired403
        else match query
          case QueryFailed => ExportFailed500
          case QueryRows(rows) => CsvFile(Document(rows.GetOr([]), localeDate), FileName(isoNow))
  }
}
