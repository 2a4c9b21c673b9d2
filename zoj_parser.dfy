/**
 * `ZOJParaer` (VirtualJudgeSpider/OJs/zoj.py): turns the response to a problem
 * page into a Problem and the response to a run-list page into a Result.
 * Both classify in a fixed order: a failed response first, then (for
 * problems) a page saying the problem does not exist, then the extraction,
 * whose failures are caught and reported as a parse error. Fields assigned
 * before an extraction step failed keep their values.
 */
module ZojParser {
  import opened Wrappers
  import opened Text
  import opened Html
  import opened Http
  import opened Config

  const StaticPrefix := "http://acm.zju.edu.cn/onlinejudge/"

  /** The style block every statement starts with (its body abbreviated here). */
  const Script := "<style>\n* { font-family: Helvetica,Arial,sans-serif; font-size: 14px; }\n</style>"

  const NoSuchProblem := "No such problem"
  const SpecialJudgeMark := "<font color=\"blue\">Special Judge</font>"
  /** The link to the sample-format page that statements carry and the parser drops. */
  const SampleLink := "/onlinejudge/faq.do#sample"
  /** The bold labels of the statement's sections. */
  const SectionLabels := ["Input", "Output", "Sample Input", "Sample Output"]

  // ---------------------------------------------------------------- problems

  /**
   * The first match of the regular expression `(\d*` + `post` + `)`: the
   * leftmost run of digits (possibly empty) directly followed by `post`,
   * together with `post`.
   */
  function DigitsThen(text: string, post: string): Option<string>
    requires post != [] && !IsDigit(post[0])
  {
    match DigitsSearch(text, "", post, 0)
    case None => None
    case Some(i) => Some(text[i..i + DigitRun(text, i) + |post|])
  }

  /** `r` is a run of digits followed by `post`. */
  predicate DigitsFollowedBy(r: string, post: string) {
    |r| >= |post| && r[|r| - |post|..] == post && forall k :: 0 <= k < |r| - |post| ==> IsDigit(r[k])
  }

  /** A match is a run of digits followed by `post`. */
  lemma DigitsThenShape(text: string, post: string)
    requires post != [] && !IsDigit(post[0])
    ensures DigitsThen(text, post).Some? ==> DigitsFollowedBy(DigitsThen(text, post).value, post)
  {
    var m := DigitsSearch(text, "", post, 0);
    if m.Some? {
      var i := m.value;
      assert LiteralAt(text, i + DigitRun(text, i), post);
      MatchShape(text, i, post);
    }
  }

  lemma MatchShape(text: string, i: nat, post: string)
    requires i <= |text| && LiteralAt(text, i + DigitRun(text, i), post)
    ensures DigitsFollowedBy(text[i..i + DigitRun(text, i) + |post|], post)
  {
    var d := DigitRun(text, i);
    var r := text[i..i + d + |post|];
    DigitRunIsDigits(text, i);
    assert forall k :: 0 <= k < d ==> r[k] == text[i + k];
    assert r[d..] == text[i + d..i + d + |post|];
  }

  /** `tag.b.string in [...]`: the first `b` inside the tag reads as a section label. */
  predicate HasSectionLabel(n: Node)
    requires n.Tag?
  {
    match Find(n.children, Named("b"))
    case None => false
    case Some(b) => StringOf(b).Some? && StringOf(b).value in SectionLabels
  }

  /** A child of `content_body` the statement leaves out. */
  predicate Dropped(n: Node) {
    match n
    case Str(_) => false
    case Special(_) => true
    case Tag(name, attrs, _, _) =>
      name == "center" || name == "hr" || (name == "a" && GetAttr(attrs, "href") == Some(SampleLink))
  }

  /** A kept tag with its style set: TITLE for `h2` and for a section label's `b`, CONTENT otherwise. */
  function Styled(n: Node): Node
    requires n.Tag?
  {
    if n.name == "h2" then SetStyle(n, TitleStyle)
    else if n.name == "p" && HasSectionLabel(n) then n.(children := StyleFirst(n.children, "b", TitleStyle))
    else SetStyle(n, ContentStyle)
  }

  /** What one child of `content_body` contributes to the statement. */
  function Piece(n: Node): string {
    if Dropped(n) then []
    else if n.Str? then n.text
    else Render(Styled(n), StaticPrefix)
  }

  function StatementOf(children: seq<Node>): string {
    if children == [] then []
    else StatementOf(children[..|children| - 1]) + Piece(children[|children| - 1])
  }

  function TitleSpan(soup: seq<Node>): Option<Node> {
    Find(soup, NamedWith("span", "class", "bigProblemTitle"))
  }

  function ContentBody(soup: seq<Node>): Option<Node> {
    Find(soup, NamedWith("div", "id", "content_body"))
  }

  /** Every extraction step finds what it looks for. */
  predicate Extractable(text: string, soup: seq<Node>) {
    && TitleSpan(soup).Some?
    && DigitsThen(text, " Second").Some?
    && DigitsThen(text, " KB").Some?
    && ContentBody(soup).Some?
  }

  /** The `try` block: each step assigns one field; the first step that fails leaves a parse error. */
  function Extract(p: Problem, text: string, soup: seq<Node>): (r: Problem)
    ensures r.status == ProblemCrawlingSuccess <==> Extractable(text, soup)
    ensures !Extractable(text, soup) ==> r.status == ProblemParseError
    ensures r.remoteOj == p.remoteOj && r.remoteId == p.remoteId && r.remoteUrl == p.remoteUrl
    ensures TitleSpan(soup).None? ==> r == p.(status := ProblemParseError)
    ensures TitleSpan(soup).Some? ==> r.title == Some(GetText(TitleSpan(soup).value))
    ensures TitleSpan(soup).Some? && DigitsThen(text, " Second").Some? ==> r.timeLimit == DigitsThen(text, " Second")
  {
    var failed := p.(status := ProblemParseError);
    match TitleSpan(soup)
    case None => failed
    case Some(span) =>
      var p1 := failed.(title := Some(GetText(span)));
      match DigitsThen(text, " Second")
      case None => p1
      case Some(time) =>
        var p2 := p1.(timeLimit := Some(time));
        match DigitsThen(text, " KB")
        case None => p2
        case Some(memory) =>
          var p3 := p2.(memoryLimit := Some(memory), specialJudge := Some(Search(SpecialJudgeMark, text)),
                        html := Some(Script));
          match ContentBody(soup)
          case None => p3
          case Some(body) => p3.(html := Some(Script + StatementOf(body.children)), status := ProblemCrawlingSuccess)
  }

  /** `problem_parse(response, pid, url)`. */
  function ProblemOf(res: Reply, pid: string, url: string): (o: Outcome<Problem>)
    ensures o.Ok? ==> o.value.remoteOj == Some("ZOJ") && o.value.remoteId == Some(pid) &&
                      o.value.remoteUrl == Some(url)
    ensures !Answered(res) || res.value.status != 200 <==> o.Ok? && o.value.status == ProblemNetworkError
    ensures o.Raised? <==> Answered(res) && res.value.status == 200 && res.value.text.None?
    ensures o.Raised? ==> o.exception == TypeError
    ensures o.Ok? && o.value.status == ProblemNotExist <==>
      Answered(res) && res.value.status == 200 && res.value.text.Some? && Search(NoSuchProblem, res.value.text.value)
    ensures o.Ok? && o.value.status == ProblemCrawlingSuccess <==>
      && Answered(res) && res.value.status == 200 && res.value.text.Some?
      && !Search(NoSuchProblem, res.value.text.value)
      && Extractable(res.value.text.value, res.value.soup)
    ensures o.Ok? ==> o.value.status in {ProblemNetworkError, ProblemNotExist, ProblemParseError, ProblemCrawlingSuccess}
    ensures o.Ok? && o.value.status == ProblemCrawlingSuccess ==>
      o.value.html == Some(Script + StatementOf(ContentBody(res.value.soup).value.children))
  {
    var p := BlankProblem(ProblemNetworkError).(remoteId := Some(pid), remoteUrl := Some(url), remoteOj := Some("ZOJ"));
    if !Answered(res) || res.value.status != 200 then Ok(p)
    else if res.value.text.None? then Raised(TypeError)
    else if Search(NoSuchProblem, res.value.text.value) then Ok(p.(status := ProblemNotExist))
    else Ok(Extract(p, res.value.text.value, res.value.soup))
  }

  /** `problem_parse`: the fields are assigned in order and the statement is appended child by child. */
  method ProblemParse(res: Reply, pid: string, url: string) returns (o: Outcome<Problem>)
    ensures o == ProblemOf(res, pid, url)
  {
    var problem := BlankProblem(ProblemNetworkError).(remoteId := Some(pid), remoteUrl := Some(url), remoteOj := Some("ZOJ"));
    if !Answered(res) {
      return Ok(problem);
    }
    if res.value.status != 200 {
      return Ok(problem);
    }
    if res.value.text.None? {
      return Raised(TypeError);
    }
    var text := res.value.text.value;
    var soup := res.value.soup;
    if Search(NoSuchProblem, text) {
      return Ok(problem.(status := ProblemNotExist));
    }
    problem := problem.(status := ProblemParseError);
    var span := TitleSpan(soup);
    if span.None? {
      return Ok(problem);
    }
    problem := problem.(title := Some(GetText(span.value)));
    var time := DigitsThen(text, " Second");
    if time.None? {
      return Ok(problem);
    }
    problem := problem.(timeLimit := time);
    var memory := DigitsThen(text, " KB");
    if memory.None? {
      return Ok(problem);
    }
    problem := problem.(memoryLimit := memory, specialJudge := Some(Search(SpecialJudgeMark, text)));
    var html := Script;
    problem := problem.(html := Some(html));
    var body := ContentBody(soup);
    if body.None? {
      return Ok(problem);
    }
    html := StatementParse(body.value.children);
    return Ok(problem.(html := Some(html), status := ProblemCrawlingSuccess));
  }

  /** The statement loop: the style block, then each kept child of `content_body` in order, styled. */
  method StatementParse(children: seq<Node>) returns (html: string)
    ensures html == Script + StatementOf(children)
  {
    html := Script;
    var i := 0;
    while i < |children|
      invariant 0 <= i <= |children|
      invariant html == Script + StatementOf(children[..i])
    {
      var piece := PieceParse(children[i]);
      assert children[..i + 1][..i] == children[..i];
      html := html + piece;
      i := i + 1;
    }
    assert children[..i] == children;
  }

  /** One pass of the statement loop: a string is copied, a kept tag is styled and rendered. */
  method PieceParse(tag: Node) returns (piece: string)
    ensures piece == Piece(tag)
  {
    piece := "";
    if tag.Str? {
      piece := tag.text;
    } else if tag.Tag? && tag.name != "center" && tag.name != "hr" {
      if !(tag.name == "a" && GetAttr(tag.attrs, "href") == Some(SampleLink)) {
        var styled := tag;
        if tag.name == "h2" {
          styled := SetStyle(tag, TitleStyle);
        } else if tag.name == "p" && HasSectionLabel(tag) {
          styled := tag.(children := StyleFirst(tag.children, "b", TitleStyle));
        } else {
          styled := SetStyle(tag, ContentStyle);
        }
        piece := Render(styled, StaticPrefix);
      }
    }
  }

  /** The children of `content_body` the statement keeps. */
  function Kept(children: seq<Node>): (r: seq<Node>)
    ensures forall k :: 0 <= k < |r| ==> !Dropped(r[k])
  {
    if children == [] then []
    else
      var init := Kept(children[..|children| - 1]);
      var last := children[|children| - 1];
      if Dropped(last) then init else init + [last]
  }

  /** `center`, `hr`, the sample link and comments contribute nothing: the statement is the same without them. */
  lemma {:induction false} DroppedContributeNothing(children: seq<Node>)
    ensures StatementOf(children) == StatementOf(Kept(children))
  {
    if children != [] {
      var init := children[..|children| - 1];
      var last := children[|children| - 1];
      DroppedContributeNothing(init);
      if !Dropped(last) {
        var w := Kept(init) + [last];
        assert w[..|w| - 1] == Kept(init);
      }
    }
  }

  /** A kept `h2` gets the TITLE style; a kept tag that is neither `h2` nor a labelled `p` gets the CONTENT style. */
  lemma StyleOfKeptTag(n: Node)
    requires n.Tag? && !Dropped(n)
    ensures n.name == "h2" ==> GetAttr(Styled(n).attrs, "style") == Some(TitleStyle)
    ensures n.name != "h2" && !(n.name == "p" && HasSectionLabel(n)) ==>
      GetAttr(Styled(n).attrs, "style") == Some(ContentStyle)
    ensures Styled(n).name == n.name
  {
    if n.name == "h2" {
      GetSetAttr(n.attrs, "style", TitleStyle);
    } else if !(n.name == "p" && HasSectionLabel(n)) {
      GetSetAttr(n.attrs, "style", ContentStyle);
    }
  }

  /** Styling the first `b` leaves it the first `b`, now carrying `style`. */
  lemma {:induction false} StyleFirstFinds(nodes: seq<Node>, style: string)
    requires Find(nodes, Named("b")).Some?
    ensures Find(StyleFirst(nodes, "b", style), Named("b"))
         == Some(SetStyle(Find(nodes, Named("b")).value, style))
    decreases nodes
  {
    var head := nodes[0];
    if head.Tag? && head.name == "b" {
    } else if head.Tag? && Find(head.children, Named("b")).Some? {
      StyleFirstFinds(head.children, style);
    } else {
      StyleFirstFinds(nodes[1..], style);
    }
  }

  /** In a labelled `p`, the `b` holding the label is the one that gets the TITLE style. */
  lemma SectionLabelStyled(n: Node)
    requires n.Tag? && n.name == "p" && HasSectionLabel(n)
    ensures var b := Find(Styled(n).children, Named("b"));
      b.Some? && GetAttr(b.value.attrs, "style") == Some(TitleStyle)
      && StringOf(b.value) == StringOf(Find(n.children, Named("b")).value)
  {
    var b := Find(n.children, Named("b")).value;
    StyleFirstFinds(n.children, TitleStyle);
    GetSetAttr(b.attrs, "style", TitleStyle);
  }

  // ----------------------------------------------------------------- results

  /** The `td` cells of the first `rowOdd` row of the `list` table; None when there is no such table or row. */
  function RunCells(soup: seq<Node>): (r: Option<seq<Node>>)
    ensures r.Some? ==> forall k :: 0 <= k < |r.value| ==> r.value[k].Tag? && r.value[k].name == "td"
  {
    match Find(soup, NamedWith("table", "class", "list"))
    case None => None
    case Some(table) =>
      match Find(table.children, NamedWith("tr", "class", "rowOdd"))
      case None => None
      case Some(row) =>
        var cells := FindAll(row.children, Named("td"));
        assert forall k :: 0 <= k < |cells| ==> cells[k] in cells;
        Some(cells)
  }

  /** The fields read from the cells; reading past the last cell stops the assignments with a parse error. */
  function CellsResult(cells: seq<Node>): (r: Result)
    requires forall k :: 0 <= k < |cells| ==> cells[k].Tag?
    ensures r.status == ResultNotExist <==> cells == []
    ensures r.status == ResultFound <==> |cells| >= 7
    ensures 0 < |cells| < 7 ==> r.status == ResultParseError
    ensures cells != [] ==> r.originRunId == StringOf(cells[0])
    ensures r.verdict.Some? <==> |cells| >= 3
    ensures r.executeTime.Some? ==> |cells| >= 6
  {
    if cells == [] then BlankResult(ResultNotExist)
    else
      var r1 := BlankResult(ResultParseError).(originRunId := StringOf(cells[0]));
      if |cells| < 3 then r1
      else
        var r2 := r1.(verdict := Some(Strip(GetText(cells[2]))));
        if |cells| < 6 then r2
        else
          var r3 := r2.(executeTime := StringOf(cells[5]));
          if |cells| < 7 then r3
          else r3.(executeMemory := StringOf(cells[6]), status := ResultFound)
  }

  /** `result_parse(response)`. */
  function ResultOf(res: Reply): (r: Result)
    ensures res.None? || res.value.status != 200 <==> r == BlankResult(ResultNetworkError)
    ensures r.status == ResultFound <==>
      && res.Some? && res.value.status == 200 && res.value.text.Some?
      && RunCells(res.value.soup).Some? && |RunCells(res.value.soup).value| >= 7
    ensures r.status == ResultFound ==>
      var cells := RunCells(res.value.soup).value;
      && r.originRunId == StringOf(cells[0])
      && r.verdict == Some(Strip(GetText(cells[2])))
      && r.executeTime == StringOf(cells[5])
      && r.executeMemory == StringOf(cells[6])
    ensures r.status == ResultNotExist <==>
      && res.Some? && res.value.status == 200 && res.value.text.Some?
      && RunCells(res.value.soup) == Some([])
    ensures r.status in {ResultNetworkError, ResultFound, ResultNotExist, ResultParseError}
  {
    if res.None? || res.value.status != 200 then BlankResult(ResultNetworkError)
    else if res.value.text.None? then BlankResult(ResultParseError)
    else match RunCells(res.value.soup)
      case None => BlankResult(ResultParseError)
      case Some(cells) => CellsResult(cells)
  }

  /** `result_parse`: the fields are assigned one after another until a cell is missing. */
  method ResultParse(res: Reply) returns (r: Result)
    ensures r == ResultOf(res)
  {
    r := BlankResult(ResultNetworkError);
    if res.None? || res.value.status != 200 {
      return;
    }
    r := r.(status := ResultParseError);
    if res.value.text.None? {
      return;
    }
    var line := RunCells(res.value.soup);
    if line.None? {
      return;
    }
    var cells := line.value;
    if cells == [] {
      r := r.(status := ResultNotExist);
      return;
    }
    r := r.(originRunId := StringOf(cells[0]));
    if |cells| < 3 {
      return;
    }
    r := r.(verdict := Some(Strip(GetText(cells[2]))));
    if |cells| < 6 {
      return;
    }
    r := r.(executeTime := StringOf(cells[5]));
    if |cells| < 7 {
      return;
    }
    r := r.(executeMemory := StringOf(cells[6]), status := ResultFound);
  }
}
