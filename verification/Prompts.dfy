/** Prompt templates: a leftmost scanner for the placeholder that names an upstream
    step's output, and the substitution of those outputs. */
module Prompts {
  import opened Basics

  const OPENING := "{{steps."
  const CLOSING := ".output}}"

  /** A template is plain characters and references to step outputs. */
  datatype Piece = Text(c: char) | Ref(id: string)

  predicate IdChar(c: char) {
    'A' <= c <= 'Z' || 'a' <= c <= 'z' || '0' <= c <= '9' || c == '_' || c == '-'
  }

  const UPPER := "ABCDEFGHIJKLMNOPQRSTUVWXYZ"
  const LOWER := "abcdefghijklmnopqrstuvwxyz"
  const DIGITS := "0123456789"

  /** The characters of the class, one by one. */
  lemma IdChars(c: char)
    ensures IdChar(c) <==> c in UPPER || c in LOWER || c in DIGITS || c in "_-"
  {
    InRun(UPPER, c);
    InRun(LOWER, c);
    InRun(DIGITS, c);
  }

  /** Consecutive characters are a range. */
  lemma InRun(s: string, c: char)
    requires s != "" && forall k :: 0 <= k < |s| ==> s[k] as int == s[0] as int + k
    ensures c in s <==> s[0] <= c <= s[|s| - 1]
  {
    if s[0] <= c <= s[|s| - 1] {
      assert s[c as int - s[0] as int] == c;
    }
  }

  predicate IsId(id: string) {
    id != "" && forall k :: 0 <= k < |id| ==> IdChar(id[k])
  }

  function Placeholder(id: string): string {
    OPENING + id + CLOSING
  }

  predicate StartsAt(p: string, i: nat, literal: string) {
    i + |literal| <= |p| && p[i..i + |literal|] == literal
  }

  /** The length of the longest run of id characters at i. */
  function RunLength(p: string, i: nat): nat
    decreases |p| - i
  {
    if i < |p| && IdChar(p[i]) then 1 + RunLength(p, i + 1) else 0
  }

  lemma {:induction false} RunIsMaximal(p: string, i: nat)
    requires i <= |p|
    ensures i + RunLength(p, i) <= |p|
    ensures forall k :: i <= k < i + RunLength(p, i) ==> IdChar(p[k])
    ensures i + RunLength(p, i) < |p| ==> !IdChar(p[i + RunLength(p, i)])
    decreases |p| - i
  {
    if i < |p| && IdChar(p[i]) {
      RunIsMaximal(p, i + 1);
    }
  }

  /** The id of the placeholder starting at i, if there is one. */
  function MatchAt(p: string, i: nat): Option<string> {
    if StartsAt(p, i, OPENING) then
      var start := i + |OPENING|;
      var n := RunLength(p, start);
      if n > 0 && StartsAt(p, start + n, CLOSING) then Some(p[start..start + n]) else None
    else None
  }

  lemma SplitPlaceholder(p: string, i: nat, id: string)
    requires i <= |p|
    ensures StartsAt(p, i, Placeholder(id)) <==>
              && StartsAt(p, i, OPENING)
              && StartsAt(p, i + |OPENING|, id)
              && StartsAt(p, i + |OPENING| + |id|, CLOSING)
  {
    var a, b := i + |OPENING|, i + |OPENING| + |id|;
    var end := b + |CLOSING|;
    if end <= |p| {
      var window := p[i..end];
      assert window == p[i..a] + p[a..b] + p[b..end];
      assert window[..|OPENING|] == p[i..a];
      assert window[|OPENING|..|OPENING| + |id|] == p[a..b];
      assert window[|OPENING| + |id|..] == p[b..end];
      assert Placeholder(id)[..|OPENING|] == OPENING;
      assert Placeholder(id)[|OPENING|..|OPENING| + |id|] == id;
      assert Placeholder(id)[|OPENING| + |id|..] == CLOSING;
    }
  }

  /** The scanner matches at i exactly when some well-formed placeholder stands there,
      and then it names that one; so the id is unique. */
  lemma MatchAtExact(p: string, i: nat, id: string)
    requires i <= |p|
    ensures MatchAt(p, i) == Some(id) <==> IsId(id) && StartsAt(p, i, Placeholder(id))
  {
    SplitPlaceholder(p, i, id);
    if StartsAt(p, i, OPENING) {
      var start := i + |OPENING|;
      var n := RunLength(p, start);
      RunIsMaximal(p, start);
      if IsId(id) && StartsAt(p, i, Placeholder(id)) {
        IdFillsRun(p, start, id);
      }
    }
  }

  lemma IdFillsRun(p: string, start: nat, id: string)
    requires start <= |p| && IsId(id) && StartsAt(p, start, id) && StartsAt(p, start + |id|, CLOSING)
    ensures RunLength(p, start) == |id|
  {
    RunIsMaximal(p, start);
    assert p[start + |id|] == CLOSING[0] by {
      assert p[start + |id|..start + |id| + |CLOSING|][0] == CLOSING[0];
    }
    assert forall k :: 0 <= k < |id| ==> p[start + k] == p[start..start + |id|][k] == id[k];
  }

  /** The length of a piece in the template. */
  function PieceLength(piece: Piece): (n: nat)
    ensures n > 0
  {
    match piece case Text(_) => 1 case Ref(id) => |OPENING| + |id| + |CLOSING|
  }

  /** A placeholder if one stands at i, and a plain character otherwise. */
  function FirstPiece(p: string, i: nat): (piece: Piece)
    requires i < |p|
    ensures i + PieceLength(piece) <= |p|
  {
    match MatchAt(p, i) case Some(id) => Ref(id) case None => Text(p[i])
  }

  /** Leftmost, non-overlapping placeholders from i on. */
  function ParseFrom(p: string, i: nat): seq<Piece>
    requires i <= |p|
    decreases |p| - i
  {
    if i == |p| then []
    else [FirstPiece(p, i)] + ParseFrom(p, i + PieceLength(FirstPiece(p, i)))
  }

  function Parse(p: string): seq<Piece> {
    ParseFrom(p, 0)
  }

  function Unparse(pieces: seq<Piece>): string {
    if pieces == [] then ""
    else UnparsePiece(pieces[0]) + Unparse(pieces[1..])
  }

  function UnparsePiece(piece: Piece): string {
    match piece case Text(c) => [c] case Ref(id) => Placeholder(id)
  }

  lemma MatchFits(p: string, i: nat, id: string) returns (next: nat)
    requires i <= |p| && MatchAt(p, i) == Some(id)
    ensures next == i + |OPENING| + |id| + |CLOSING| && i < next <= |p|
    ensures Placeholder(id) == p[i..next]
  {
    MatchAtExact(p, i, id);
    next := i + |Placeholder(id)|;
  }

  lemma ParseStep(p: string, i: nat) returns (piece: Piece, next: nat)
    requires i < |p|
    ensures i < next <= |p|
    ensures ParseFrom(p, i) == [piece] + ParseFrom(p, next)
    ensures UnparsePiece(piece) == p[i..next]
    ensures piece == FirstPiece(p, i)
  {
    piece := FirstPiece(p, i);
    next := i + PieceLength(piece);
    ParseUnfolds(p, i);
    PieceText(p, i);
  }

  lemma ParseUnfolds(p: string, i: nat)
    requires i < |p|
    ensures ParseFrom(p, i) == [FirstPiece(p, i)] + ParseFrom(p, i + PieceLength(FirstPiece(p, i)))
  {
  }

  lemma PieceText(p: string, i: nat)
    requires i < |p|
    ensures UnparsePiece(FirstPiece(p, i)) == p[i..i + PieceLength(FirstPiece(p, i))]
  {
    if MatchAt(p, i).Some? {
      var end := MatchFits(p, i, MatchAt(p, i).value);
    }
  }

  /** Parsing loses nothing: printing the pieces gives the prompt back. */
  lemma {:induction false} UnparseParse(p: string, i: nat)
    requires i <= |p|
    ensures Unparse(ParseFrom(p, i)) == p[i..]
    decreases |p| - i
  {
    if i < |p| {
      var piece, next := ParseStep(p, i);
      UnparseParse(p, next);
      UnparseStep(p, i, piece, next, ParseFrom(p, next));
    }
  }

  lemma UnparseStep(p: string, i: nat, piece: Piece, next: nat, rest: seq<Piece>)
    requires i <= next <= |p| && UnparsePiece(piece) == p[i..next] && Unparse(rest) == p[next..]
    ensures Unparse([piece] + rest) == p[i..]
  {
    UnparseCons(piece, rest);
    Cut(p, i, next);
  }

  lemma Cut(p: string, i: nat, next: nat)
    requires i <= next <= |p|
    ensures p[i..] == p[i..next] + p[next..]
  {
  }

  lemma UnparseCons(piece: Piece, rest: seq<Piece>)
    ensures Unparse([piece] + rest) == UnparsePiece(piece) + Unparse(rest)
  {
    assert ([piece] + rest)[1..] == rest;
  }

  /** The steps a prompt refers to. */
  ghost function References(prompt: string): set<string> {
    set piece | piece in Parse(prompt) && piece.Ref? :: piece.id
  }

  // ---------- The scanner finds every placeholder ----------

  lemma PlaceholderChars(id: string, n: nat)
    requires IsId(id) && 2 <= n < |Placeholder(id)|
    ensures Placeholder(id)[n] != '{'
    ensures Placeholder(id)[2] == 's'
  {
    var m := n - |OPENING|;
    if 0 <= m < |id| {
      assert Placeholder(id)[n] == id[m];
    } else if m >= |id| {
      assert Placeholder(id)[n] == CLOSING[m - |id|];
    }
  }

  /** No placeholder begins inside another one. */
  lemma NoOverlap(p: string, i: nat, id: string, j: nat)
    requires IsId(id) && StartsAt(p, i, Placeholder(id)) && i < j < i + |Placeholder(id)|
    ensures !StartsAt(p, j, OPENING)
  {
    var q := Placeholder(id);
    assert forall n :: 0 <= n < |q| ==> p[i + n] == p[i..i + |q|][n] == q[n];
    PlaceholderChars(id, if j - i >= 2 then j - i else 2);
    OpeningBraces(p, j);
  }

  lemma OpeningBraces(p: string, j: nat)
    ensures StartsAt(p, j, OPENING) ==> p[j] == '{' && p[j + 1] == '{'
  {
    if StartsAt(p, j, OPENING) {
      assert p[j..j + |OPENING|][0] == p[j] && p[j..j + |OPENING|][1] == p[j + 1];
    }
  }

  lemma NextIsNotPast(p: string, i: nat, piece: Piece, next: nat, j: nat, id: string)
    requires i < j <= |p| && i < next <= |p| && UnparsePiece(piece) == p[i..next]
    requires MatchAt(p, i) == (if piece.Ref? then Some(piece.id) else None)
    requires IsId(id) && StartsAt(p, j, Placeholder(id))
    ensures next <= j
  {
    if piece.Ref? {
      MatchAtExact(p, i, piece.id);
      SplitPlaceholder(p, j, id);
      if j < i + |Placeholder(piece.id)| {
        NoOverlap(p, i, piece.id, j);
      }
    }
  }

  lemma {:induction false} OccurrenceFound(p: string, i: nat, j: nat, id: string)
    requires i <= j <= |p| && IsId(id) && StartsAt(p, j, Placeholder(id))
    ensures Ref(id) in ParseFrom(p, i)
    decreases j - i
  {
    var n := |p|;
    assert j < n;
    var piece, next := ParseStep(p, i);
    if i == j {
      MatchAtExact(p, i, id);
    } else {
      NextIsNotPast(p, i, piece, next, j, id);
      OccurrenceFound(p, next, j, id);
    }
  }

  lemma {:induction false} FoundOccurs(p: string, i: nat, id: string) returns (j: nat)
    requires i <= |p| && Ref(id) in ParseFrom(p, i)
    ensures j <= |p| && IsId(id) && StartsAt(p, j, Placeholder(id))
    decreases |p| - i
  {
    var piece, next := ParseStep(p, i);
    if piece == Ref(id) {
      MatchAtExact(p, i, id);
      j := i;
    } else {
      j := FoundOccurs(p, next, id);
    }
  }

  /** A prompt refers to exactly the ids whose placeholder occurs in it. */
  lemma ReferencesExact(p: string, id: string)
    ensures id in References(p) <==> IsId(id) && exists j: nat :: StartsAt(p, j, Placeholder(id))
  {
    if id in References(p) {
      var piece :| piece in Parse(p) && piece.Ref? && piece.id == id;
      var j := FoundOccurs(p, 0, id);
    }
    if IsId(id) && exists j: nat :: StartsAt(p, j, Placeholder(id)) {
      var j: nat :| StartsAt(p, j, Placeholder(id));
      OccurrenceFound(p, 0, j, id);
    }
  }

  // ---------- Substitution ----------

  /** The usable output of a step: only a succeeded result has one. */
  function Output(results: map<string, StepResult>, id: string): Option<string> {
    if id in results && results[id].status == Succeeded then Some(results[id].output) else None
  }

  function Unavailable(id: string): string {
    "output for step \"" + id + "\" is unavailable"
  }

  function SubstitutePiece(piece: Piece, results: map<string, StepResult>): string {
    match piece
    case Text(c) => [c]
    case Ref(id) =>
      match Output(results, id)
      case Some(output) => output
      case None => Placeholder(id)
  }

  function Substitute(pieces: seq<Piece>, results: map<string, StepResult>): string {
    if pieces == [] then ""
    else Substitute(pieces[..|pieces| - 1], results) + SubstitutePiece(pieces[|pieces| - 1], results)
  }

  /** The last reference without an output: later failures overwrite earlier ones. */
  function LastMissing(pieces: seq<Piece>, results: map<string, StepResult>): Option<string> {
    if pieces == [] then None
    else
      var last := pieces[|pieces| - 1];
      if last.Ref? && Output(results, last.id).None? then Some(last.id)
      else LastMissing(pieces[..|pieces| - 1], results)
  }

  /** White space as strings.TrimSpace knows it. */
  predicate IsSpace(c: char) {
    || '\U{9}' <= c <= '\U{D}' || c == ' ' || c == '\U{85}' || c == '\U{A0}' || c == '\U{1680}'
    || '\U{2000}' <= c <= '\U{200A}' || c == '\U{2028}' || c == '\U{2029}' || c == '\U{202F}'
    || c == '\U{205F}' || c == '\U{3000}'
  }

  /** The white space characters, one by one. */
  lemma Spaces(c: char)
    ensures IsSpace(c) <==>
            c in "\t\n\U{B}\U{C}\r \U{85}\U{A0}\U{1680}\U{2028}\U{2029}\U{202F}\U{205F}\U{3000}"
            || c in "\U{2000}\U{2001}\U{2002}\U{2003}\U{2004}\U{2005}\U{2006}\U{2007}\U{2008}\U{2009}\U{200A}"
  {
    InRun("\t\n\U{B}\U{C}\r", c);
    InRun("\U{2000}\U{2001}\U{2002}\U{2003}\U{2004}\U{2005}\U{2006}\U{2007}\U{2008}\U{2009}\U{200A}", c);
    var others := " \U{85}\U{A0}\U{1680}\U{2028}\U{2029}\U{202F}\U{205F}\U{3000}";
    var all := "\t\n\U{B}\U{C}\r \U{85}\U{A0}\U{1680}\U{2028}\U{2029}\U{202F}\U{205F}\U{3000}";
    assert all == "\t\n\U{B}\U{C}\r" + others;
  }

  function TrimLeft(s: string): string {
    if s != "" && IsSpace(s[0]) then TrimLeft(s[1..]) else s
  }

  function TrimRight(s: string): string {
    if s != "" && IsSpace(s[|s| - 1]) then TrimRight(s[..|s| - 1]) else s
  }

  function Trim(s: string): string {
    TrimRight(TrimLeft(s))
  }

  /** Trimming cuts white space off both ends and stops at the first other character. */
  lemma {:induction false} TrimLeftMeans(s: string) returns (i: nat)
    ensures i <= |s| && TrimLeft(s) == s[i..]
    ensures forall k :: 0 <= k < i ==> IsSpace(s[k])
    ensures i < |s| ==> !IsSpace(s[i])
  {
    if s != "" && IsSpace(s[0]) {
      var k := TrimLeftMeans(s[1..]);
      i := k + 1;
    } else {
      i := 0;
    }
  }

  lemma {:induction false} TrimRightMeans(s: string) returns (i: nat)
    ensures i <= |s| && TrimRight(s) == s[..i]
    ensures forall k :: i <= k < |s| ==> IsSpace(s[k])
    ensures i > 0 ==> !IsSpace(s[i - 1])
  {
    if s != "" && IsSpace(s[|s| - 1]) {
      i := TrimRightMeans(s[..|s| - 1]);
    } else {
      i := |s|;
    }
  }

  lemma TrimMeans(s: string) returns (i: nat, j: nat)
    ensures i <= j <= |s| && Trim(s) == s[i..j]
    ensures forall k :: 0 <= k < i || j <= k < |s| ==> IsSpace(s[k])
    ensures i < j ==> !IsSpace(s[i]) && !IsSpace(s[j - 1])
  {
    i := TrimLeftMeans(s);
    var n := TrimRightMeans(s[i..]);
    j := i + n;
  }

  /** The rendered prompt, or the complaint about the last reference that has no output. */
  function Render(prompt: string, results: map<string, StepResult>): Result<string, string> {
    match LastMissing(Parse(prompt), results)
    case Some(id) => Err(Unavailable(id))
    case None => Ok(Trim(Substitute(Parse(prompt), results)))
  }

  lemma OneMorePiece(pieces: seq<Piece>, k: nat, results: map<string, StepResult>)
    requires k < |pieces|
    ensures Substitute(pieces[..k + 1], results)
            == Substitute(pieces[..k], results) + SubstitutePiece(pieces[k], results)
    ensures LastMissing(pieces[..k + 1], results) ==
              if pieces[k].Ref? && Output(results, pieces[k].id).None? then Some(pieces[k].id)
              else LastMissing(pieces[..k], results)
  {
    assert pieces[..k + 1][..k] == pieces[..k];
  }

  /** renderPrompt: one pass over the pieces, remembering the latest complaint. */
  method RenderPrompt(prompt: string, results: map<string, StepResult>) returns (r: Result<string, string>)
    ensures r == Render(prompt, results)
  {
    var pieces := Parse(prompt);
    var rendered := "";
    var renderErr: Option<string> := None;
    for k := 0 to |pieces|
      invariant rendered == Substitute(pieces[..k], results)
      invariant renderErr == match LastMissing(pieces[..k], results)
                             case Some(id) => Some(Unavailable(id))
                             case None => None
    {
      OneMorePiece(pieces, k, results);
      match pieces[k] {
        case Text(c) =>
          rendered := rendered + [c];
        case Ref(id) =>
          if id !in results || results[id].status != Succeeded {
            renderErr := Some(Unavailable(id));
            rendered := rendered + Placeholder(id);
          } else {
            rendered := rendered + results[id].output;
          }
      }
    }
    assert pieces[..|pieces|] == pieces;
    if renderErr.Some? {
      return Err(renderErr.value);
    }
    r := Ok(Trim(rendered));
  }

  lemma {:induction false} PiecesAgree(pieces: seq<Piece>, r1: map<string, StepResult>, r2: map<string, StepResult>)
    requires forall piece :: piece in pieces && piece.Ref? ==> Output(r1, piece.id) == Output(r2, piece.id)
    ensures Substitute(pieces, r1) == Substitute(pieces, r2)
    ensures LastMissing(pieces, r1) == LastMissing(pieces, r2)
  {
    if pieces != [] {
      assert pieces[|pieces| - 1] in pieces;
      PiecesAgree(pieces[..|pieces| - 1], r1, r2);
    }
  }

  /** A prompt sees only the outputs of the steps it refers to. */
  lemma RenderAgrees(prompt: string, r1: map<string, StepResult>, r2: map<string, StepResult>)
    requires forall u :: u in References(prompt) ==> Output(r1, u) == Output(r2, u)
    ensures Render(prompt, r1) == Render(prompt, r2)
  {
    forall piece | piece in Parse(prompt) && piece.Ref? ensures Output(r1, piece.id) == Output(r2, piece.id) {
      assert piece.id in References(prompt);
    }
    PiecesAgree(Parse(prompt), r1, r2);
  }

  lemma {:induction false} MissingExactly(pieces: seq<Piece>, results: map<string, StepResult>)
    ensures LastMissing(pieces, results).None? <==>
              forall piece :: piece in pieces && piece.Ref? ==> Output(results, piece.id).Some?
  {
    if pieces != [] {
      var front := pieces[..|pieces| - 1];
      assert pieces == front + [pieces[|pieces| - 1]];
      MissingExactly(front, results);
    }
  }

  /** Rendering succeeds iff every referenced step has succeeded. */
  lemma RenderSucceeds(prompt: string, results: map<string, StepResult>)
    ensures Render(prompt, results).Ok? <==> forall u :: u in References(prompt) ==> Output(results, u).Some?
  {
    MissingExactly(Parse(prompt), results);
    forall piece | piece in Parse(prompt) && piece.Ref? ensures piece.id in References(prompt) {}
  }

  lemma {:induction false} TextSubstitutes(pieces: seq<Piece>, results: map<string, StepResult>)
    requires forall piece :: piece in pieces ==> piece.Text?
    ensures |Substitute(pieces, results)| == |pieces|
    ensures forall k :: 0 <= k < |pieces| ==> Substitute(pieces, results)[k] == pieces[k].c
  {
    if pieces != [] {
      TextSubstitutes(pieces[..|pieces| - 1], results);
    }
  }

  lemma {:induction false} TextUnparses(pieces: seq<Piece>)
    requires forall piece :: piece in pieces ==> piece.Text?
    ensures |Unparse(pieces)| == |pieces|
    ensures forall k :: 0 <= k < |pieces| ==> Unparse(pieces)[k] == pieces[k].c
  {
    if pieces != [] {
      TextUnparses(pieces[1..]);
    }
  }

  lemma ReferencesListed(prompt: string)
    ensures forall piece :: piece in Parse(prompt) && piece.Ref? ==> piece.id in References(prompt)
  {
  }

  /** A prompt without references is passed on as it is, but for the trimming. */
  lemma PlainPrompt(prompt: string, results: map<string, StepResult>)
    requires References(prompt) == {}
    ensures Render(prompt, results) == Ok(Trim(prompt))
  {
    ReferencesListed(prompt);
    MissingExactly(Parse(prompt), results);
    TextSubstitutes(Parse(prompt), results);
    TextUnparses(Parse(prompt));
    UnparseParse(prompt, 0);
    assert Substitute(Parse(prompt), results) == prompt;
  }

  // ---------- What rendering puts where ----------

  /** Texts with something in between. */
  function Woven(texts: seq<string>, fills: seq<string>): string
    requires |texts| == |fills| + 1
  {
    if fills == [] then texts[0] else texts[0] + fills[0] + Woven(texts[1..], fills[1..])
  }

  function Placeholders(ids: seq<string>): seq<string> {
    seq(|ids|, k requires 0 <= k < |ids| => Placeholder(ids[k]))
  }

  /** The prompt is these texts with placeholders for these ids in between, and there are
      no placeholders in the texts. */
  ghost predicate IsTemplate(prompt: string, texts: seq<string>, ids: seq<string>) {
    && |texts| == |ids| + 1 && prompt == Woven(texts, Placeholders(ids))
    && (forall k :: 0 <= k < |ids| ==> IsId(ids[k])) && forall k :: 0 <= k < |texts| ==> References(texts[k]) == {}
  }

  function Texts(text: string): seq<Piece> {
    seq(|text|, k requires 0 <= k < |text| => Text(text[k]))
  }

  function WovenPieces(texts: seq<string>, ids: seq<string>): seq<Piece>
    requires |texts| == |ids| + 1
  {
    if ids == [] then Texts(texts[0]) else Texts(texts[0]) + [Ref(ids[0])] + WovenPieces(texts[1..], ids[1..])
  }

  /** In a text without placeholders, followed by nothing or by a placeholder, none begins. */
  lemma NoMatchInText(p: string, i: nat, text: string, j: nat)
    requires StartsAt(p, i, text) && References(text) == {} && j < |text| && TextMayEnd(p, i + |text|)
    ensures MatchAt(p, i + j).None?
  {
    if MatchAt(p, i + j).Some? {
      var id := MatchAt(p, i + j).value;
      MatchAtExact(p, i + j, id);
      if j + |Placeholder(id)| <= |text| {
        StartsWithin(p, i, text, j, Placeholder(id));
        ReferencesExact(text, id);
      } else {
        NoneReaches(p, i + j, id, i + |text|);
      }
    }
  }

  /** The prompt ends here, or a placeholder begins. */
  ghost predicate TextMayEnd(p: string, i: nat) {
    i == |p| || exists id :: IsId(id) && StartsAt(p, i, Placeholder(id))
  }

  lemma StartsWithin(p: string, i: nat, text: string, j: nat, literal: string)
    requires StartsAt(p, i, text) && StartsAt(p, i + j, literal) && j + |literal| <= |text|
    ensures StartsAt(text, j, literal)
  {
    forall k | 0 <= k < |literal| ensures text[j + k] == literal[k] {
      assert text[j + k] == p[i..i + |text|][j + k] == p[i + j + k] == p[i + j..i + j + |literal|][k];
    }
  }

  /** No placeholder reaches over a place where a text may end. */
  lemma NoneReaches(p: string, i: nat, id: string, end: nat)
    requires IsId(id) && i < end && TextMayEnd(p, end) && StartsAt(p, i, Placeholder(id))
    ensures i + |Placeholder(id)| <= end
  {
    if end != |p| {
      var next :| IsId(next) && StartsAt(p, end, Placeholder(next));
      SplitPlaceholder(p, end, next);
      assert StartsAt(p, end, OPENING);
      if end < i + |Placeholder(id)| {
        NoOverlap(p, i, id, end);
      }
    }
  }

  lemma ParseText(p: string, i: nat, text: string)
    requires StartsAt(p, i, text) && References(text) == {} && TextMayEnd(p, i + |text|)
    ensures ParseFrom(p, i) == Texts(text) + ParseFrom(p, i + |text|)
  {
    forall j | i <= j < i + |text| ensures MatchAt(p, j).None? {
      NoMatchInText(p, i, text, j - i);
    }
    ParseChars(p, i, i + |text|);
  }

  lemma {:induction false} ParseChars(p: string, i: nat, end: nat)
    requires i <= end <= |p| && forall j :: i <= j < end ==> MatchAt(p, j).None?
    ensures ParseFrom(p, i) == Texts(p[i..end]) + ParseFrom(p, end)
    decreases end - i
  {
    if i == end {
      assert Texts(p[i..end]) == [];
    } else {
      ParseChar(p, i);
      ParseChars(p, i + 1, end);
      TextsUnfold(p[..end], i);
      assert p[..end][i..] == p[i..end] && p[..end][i + 1..] == p[i + 1..end];
      Associative([Text(p[i])], Texts(p[i + 1..end]), ParseFrom(p, end));
    }
  }

  lemma ParseChar(p: string, i: nat)
    requires i < |p| && MatchAt(p, i).None?
    ensures ParseFrom(p, i) == [Text(p[i])] + ParseFrom(p, i + 1)
  {
    ParseUnfolds(p, i);
  }

  lemma TextsUnfold(text: string, j: nat)
    requires j < |text|
    ensures Texts(text[j..]) == [Text(text[j])] + Texts(text[j + 1..])
  {
  }

  /** From i on the prompt is woven: first a text, then a placeholder and the rest. */
  lemma WovenStarts(p: string, i: nat, texts: seq<string>, ids: seq<string>)
    requires i <= |p| && |texts| == |ids| + 1 && p[i..] == Woven(texts, Placeholders(ids))
    ensures StartsAt(p, i, texts[0])
    ensures if ids == [] then i + |texts[0]| == |p|
            else
              var next := i + |texts[0]| + |Placeholder(ids[0])|;
              && StartsAt(p, i + |texts[0]|, Placeholder(ids[0])) && next <= |p|
              && p[next..] == Woven(texts[1..], Placeholders(ids[1..]))
  {
    if ids != [] {
      assert Placeholders(ids)[1..] == Placeholders(ids[1..]);
      ThreeParts(p, i, texts[0], Placeholder(ids[0]), Woven(texts[1..], Placeholders(ids[1..])));
    }
  }

  lemma ThreeParts(p: string, i: nat, a: string, b: string, rest: string)
    requires i <= |p| && p[i..] == a + b + rest
    ensures StartsAt(p, i, a) && StartsAt(p, i + |a|, b)
    ensures i + |a| + |b| <= |p| && p[i + |a| + |b|..] == rest
  {
    assert |p| - i == |a| + |b| + |rest|;
    assert forall k :: 0 <= k < |a| ==> p[i + k] == p[i..][k] == a[k];
    assert forall k :: 0 <= k < |b| ==> p[i + |a| + k] == p[i..][|a| + k] == b[k];
    assert forall k :: 0 <= k < |rest| ==> p[i + |a| + |b| + k] == p[i..][|a| + |b| + k] == rest[k];
  }

  lemma {:induction false} ParseWoven(p: string, i: nat, texts: seq<string>, ids: seq<string>)
    requires i <= |p| && |texts| == |ids| + 1 && p[i..] == Woven(texts, Placeholders(ids))
    requires forall k :: 0 <= k < |ids| ==> IsId(ids[k])
    requires forall k :: 0 <= k < |texts| ==> References(texts[k]) == {}
    ensures ParseFrom(p, i) == WovenPieces(texts, ids)
    decreases |ids|
  {
    WovenStarts(p, i, texts, ids);
    ParseText(p, i, texts[0]);
    if ids == [] {
      assert ParseFrom(p, |p|) == [];
    } else {
      var at := i + |texts[0]|;
      ParseReference(p, at, ids[0]);
      var next := at + |Placeholder(ids[0])|;
      ParseWoven(p, next, texts[1..], ids[1..]);
      Associative(Texts(texts[0]), [Ref(ids[0])], ParseFrom(p, next));
    }
  }

  lemma ParseReference(p: string, i: nat, id: string)
    requires IsId(id) && StartsAt(p, i, Placeholder(id))
    ensures ParseFrom(p, i) == [Ref(id)] + ParseFrom(p, i + |Placeholder(id)|)
  {
    MatchAtExact(p, i, id);
    ParseUnfolds(p, i);
  }

  lemma {:induction false} SubstituteConcat(a: seq<Piece>, b: seq<Piece>, results: map<string, StepResult>)
    ensures Substitute(a + b, results) == Substitute(a, results) + Substitute(b, results)
  {
    if b == [] {
      assert a + b == a;
    } else {
      LastPiece(a, b);
      var (front, last) := (b[..|b| - 1], b[|b| - 1]);
      SubstituteConcat(a, front, results);
      Associative(Substitute(a, results), Substitute(front, results), SubstitutePiece(last, results));
    }
  }

  lemma LastPiece(a: seq<Piece>, b: seq<Piece>)
    requires b != []
    ensures (a + b)[..|a + b| - 1] == a + b[..|b| - 1] && (a + b)[|a + b| - 1] == b[|b| - 1]
  {
  }

  lemma {:induction false} MissingConcat(a: seq<Piece>, b: seq<Piece>, results: map<string, StepResult>)
    ensures LastMissing(a + b, results)
         == if LastMissing(b, results).Some? then LastMissing(b, results) else LastMissing(a, results)
  {
    if b == [] {
      assert a + b == a;
    } else {
      LastPiece(a, b);
      MissingConcat(a, b[..|b| - 1], results);
    }
  }

  lemma TextsSubstitute(text: string, results: map<string, StepResult>)
    ensures Substitute(Texts(text), results) == text && LastMissing(Texts(text), results) == None
  {
    TextSubstitutes(Texts(text), results);
    MissingExactly(Texts(text), results);
  }

  /** What the references are replaced by; a placeholder stays if there is no output. */
  ghost function Fills(ids: seq<string>, results: map<string, StepResult>): seq<string> {
    seq(|ids|, k requires 0 <= k < |ids| =>
      if Usable(results, ids[k]) then results[ids[k]].output else Placeholder(ids[k]))
  }

  predicate Usable(results: map<string, StepResult>, id: string) {
    id in results && results[id].status == Succeeded
  }

  /** k is the last reference without a usable output. */
  ghost predicate LastUnusable(ids: seq<string>, results: map<string, StepResult>, k: int) {
    && -1 <= k < |ids| && (k >= 0 ==> !Usable(results, ids[k]))
    && forall n :: k < n < |ids| ==> Usable(results, ids[n])
  }

  lemma {:induction false} WovenSubstitutes(texts: seq<string>, ids: seq<string>, results: map<string, StepResult>)
    requires |texts| == |ids| + 1
    ensures Substitute(WovenPieces(texts, ids), results) == Woven(texts, Fills(ids, results))
    decreases |ids|
  {
    TextsSubstitute(texts[0], results);
    if ids != [] {
      WovenSubstitutes(texts[1..], ids[1..], results);
      var (text, id, rest) := (Texts(texts[0]), ids[0], WovenPieces(texts[1..], ids[1..]));
      SubstituteConcat(text + [Ref(id)], rest, results);
      SubstituteConcat(text, [Ref(id)], results);
      OneRef(id, results);
      FillsUnfold(ids, results);
    }
  }

  lemma FillsUnfold(ids: seq<string>, results: map<string, StepResult>)
    requires ids != []
    ensures Fills(ids, results)[0] == if Usable(results, ids[0]) then results[ids[0]].output else Placeholder(ids[0])
    ensures Fills(ids, results)[1..] == Fills(ids[1..], results)
  {
  }

  lemma {:induction false} WovenMissing(texts: seq<string>, ids: seq<string>, results: map<string, StepResult>)
    returns (k: int)
    requires |texts| == |ids| + 1
    ensures LastUnusable(ids, results, k)
    ensures LastMissing(WovenPieces(texts, ids), results) == (if k >= 0 then Some(ids[k]) else None)
    decreases |ids|
  {
    TextsSubstitute(texts[0], results);
    if ids == [] {
      k := -1;
    } else {
      var n := WovenMissing(texts[1..], ids[1..], results);
      k := if n >= 0 then n + 1 else if Usable(results, ids[0]) then -1 else 0;
      MissingConcat(Texts(texts[0]) + [Ref(ids[0])], WovenPieces(texts[1..], ids[1..]), results);
      MissingConcat(Texts(texts[0]), [Ref(ids[0])], results);
      OneRef(ids[0], results);
      LastUnusableMore(ids, results, n, k);
    }
  }

  lemma LastUnusableMore(ids: seq<string>, results: map<string, StepResult>, n: int, k: int)
    requires ids != [] && LastUnusable(ids[1..], results, n)
    requires k == if n >= 0 then n + 1 else if Usable(results, ids[0]) then -1 else 0
    ensures LastUnusable(ids, results, k)
  {
    forall m | k < m < |ids| ensures Usable(results, ids[m]) {
      if m > 0 {
        assert ids[m] == ids[1..][m - 1];
      }
    }
  }

  lemma OneRef(id: string, results: map<string, StepResult>)
    ensures Substitute([Ref(id)], results)
         == if Usable(results, id) then results[id].output else Placeholder(id)
    ensures LastMissing([Ref(id)], results) == if Usable(results, id) then None else Some(id)
  {
    assert [Ref(id)][..0] == [];
  }

  function Outputs(ids: seq<string>, results: map<string, StepResult>): seq<string>
    requires forall k :: 0 <= k < |ids| ==> ids[k] in results
  {
    seq(|ids|, k requires 0 <= k < |ids| => results[ids[k]].output)
  }

  /** What a prompt renders to: its texts with the outputs in between, trimmed; outputs are
      not scanned again. If outputs are missing, the complaint is about the reference that
      comes last among those without one. */
  lemma RenderWeaves(prompt: string, texts: seq<string>, ids: seq<string>, results: map<string, StepResult>)
    requires IsTemplate(prompt, texts, ids)
    ensures forall k :: 0 <= k < |ids| ==> Placeholders(ids)[k] == "{{steps." + ids[k] + ".output}}"
    ensures (forall k :: 0 <= k < |ids| ==> ids[k] in results && results[ids[k]].status == Succeeded) ==>
              Render(prompt, results) == Ok(Trim(Woven(texts, Outputs(ids, results))))
    ensures forall k :: 0 <= k < |ids| && !Usable(results, ids[k])
                        && (forall n :: k < n < |ids| ==> Usable(results, ids[n])) ==>
              Render(prompt, results) == Err("output for step \"" + ids[k] + "\" is unavailable")
  {
    var last := RenderFills(prompt, texts, ids, results);
    if forall k :: 0 <= k < |ids| ==> ids[k] in results && results[ids[k]].status == Succeeded {
      assert Fills(ids, results) == Outputs(ids, results);
    }
  }

  lemma RenderFills(prompt: string, texts: seq<string>, ids: seq<string>, results: map<string, StepResult>)
    returns (k: int)
    requires IsTemplate(prompt, texts, ids)
    ensures LastUnusable(ids, results, k)
    ensures Render(prompt, results)
         == if k >= 0 then Err(Unavailable(ids[k])) else Ok(Trim(Woven(texts, Fills(ids, results))))
  {
    assert prompt[0..] == prompt;
    ParseWoven(prompt, 0, texts, ids);
    WovenSubstitutes(texts, ids, results);
    k := WovenMissing(texts, ids, results);
  }

  /** Every prompt is such a template. */
  lemma EveryPromptWoven(prompt: string) returns (texts: seq<string>, ids: seq<string>)
    ensures IsTemplate(prompt, texts, ids)
  {
    texts, ids := WovenFrom(prompt, 0);
    assert prompt[0..] == prompt;
  }

  lemma {:induction false} WovenFrom(p: string, i: nat) returns (texts: seq<string>, ids: seq<string>)
    requires i <= |p|
    ensures IsTemplate(p[i..], texts, ids)
    decreases |p| - i
  {
    if i == |p| {
      texts, ids := [""], [];
    } else {
      match MatchAt(p, i) {
        case Some(id) =>
          var next := MatchFits(p, i, id);
          texts, ids := WovenFrom(p, next);
          texts, ids := MoreReferences(p, i, next, id, texts, ids);
        case None =>
          texts, ids := WovenFrom(p, i + 1);
          texts := LongerText(p, i, texts, ids);
      }
    }
  }

  lemma MoreReferences(p: string, i: nat, next: nat, id: string, texts: seq<string>, ids: seq<string>)
    returns (moreTexts: seq<string>, moreIds: seq<string>)
    requires i < next <= |p| && MatchAt(p, i) == Some(id) && p[i..next] == Placeholder(id)
    requires IsTemplate(p[next..], texts, ids)
    ensures IsTemplate(p[i..], moreTexts, moreIds)
  {
    moreTexts, moreIds := [""] + texts, [id] + ids;
    assert Placeholders(moreIds)[1..] == Placeholders(ids) && moreTexts[1..] == texts;
    assert p[i..] == p[i..next] + p[next..];
    MatchAtExact(p, i, id);
    assert References("") == {};
  }

  lemma LongerText(p: string, i: nat, texts: seq<string>, ids: seq<string>) returns (more: seq<string>)
    requires i < |p| && MatchAt(p, i).None? && IsTemplate(p[i + 1..], texts, ids)
    ensures IsTemplate(p[i..], more, ids)
  {
    more := [[p[i]] + texts[0]] + texts[1..];
    assert p[i..] == [p[i]] + p[i + 1..];
    LongerTextIsPlain(p, i, texts, ids, more[0]);
    assert more[1..] == texts[1..];
  }

  lemma LongerTextIsPlain(p: string, i: nat, texts: seq<string>, ids: seq<string>, text: string)
    requires i < |p| && MatchAt(p, i).None? && IsTemplate(p[i + 1..], texts, ids) && text == [p[i]] + texts[0]
    ensures References(text) == {}
  {
    WovenStarts(p, i + 1, texts, ids);
    assert p[i..i + |text|] == text;
    forall id ensures id !in References(text) {
      ReferencesExact(text, id);
      ReferencesExact(texts[0], id);
      MatchAtExact(p, i, id);
      forall j: nat | IsId(id) ensures !StartsAt(text, j, Placeholder(id)) {
        NotInLongerText(p, i, texts[0], text, j, id);
      }
    }
  }

  lemma NotInLongerText(p: string, i: nat, rest: string, text: string, j: nat, id: string)
    requires i < |p| && text == [p[i]] + rest && StartsAt(p, i, text) && !StartsAt(p, i, Placeholder(id))
    requires forall k: nat :: !StartsAt(rest, k, Placeholder(id))
    ensures !StartsAt(text, j, Placeholder(id))
  {
    var n := |Placeholder(id)|;
    if j + n <= |text| {
      if j == 0 {
        assert text[..n] == p[i..i + n];
      } else {
        assert !StartsAt(rest, j - 1, Placeholder(id));
        assert text[j..j + n] == rest[j - 1..j - 1 + n];
      }
    }
  }
}
