/**
 * `CodeforcesParser` (spider/platforms/codeforces.py): turns the response to a
 * problem page into a Problem and the response to a submission page into a
 * Result. Neither raises for a missing or failed response; `problem_parse`
 * raises only when a limit block it found is empty.
 */
module CodeforcesParser {
  import opened Wrappers
  import opened Text
  import opened Html
  import opened Http
  import opened Config

  const StaticPrefix := "http://codeforces.com/"

  /** The MathJax configuration appended to every statement (its body abbreviated here). */
  const Script := "\n<script type=\"text/x-mathjax-config\">\nMathJax.Hub.Config({ ... });\n</script>\n" +
                  "<script src=\"https://cdn.bootcss.com/mathjax/2.7.5/MathJax.js?config=TeX-AMS_HTML-full\" async></script>\n"

  /** A response the parsers can read: present, status 200, with text. */
  predicate Usable(res: Reply) {
    res.Some? && res.value.status == 200 && res.value.text.Some?
  }

  // ---------------------------------------------------------------- problems

  /** A child of the statement block whose class list names `header`. */
  predicate IsHeader(n: Node) {
    n.Tag? && "header" in n.classes
  }

  /** The class a grandchild of the statement is given: TITLE for a section title, CONTENT otherwise. */
  function RoleClass(g: Node): string
    requires g.Tag?
  {
    if "section-title" in g.classes then TitleClass else ContentClass
  }

  function RoleStyle(g: Node): string
    requires g.Tag?
  {
    if "section-title" in g.classes then TitleStyle else ContentStyle
  }

  /** A grandchild after labelling: a tag gets its role appended to its classes and the role's style. */
  function Labelled(g: Node): Node {
    if g.Tag? then g.(classes := g.classes + [RoleClass(g)], attrs := SetAttr(g.attrs, "style", RoleStyle(g)))
    else g
  }

  /** A child of the statement block with every grandchild labelled. */
  function LabelAll(child: Node): (r: Node)
    requires child.Tag?
  {
    child.(children := seq(|child.children|, k requires 0 <= k < |child.children| => Labelled(child.children[k])))
  }

  /** What one child of the statement block contributes to the statement. */
  function Piece(child: Node): string {
    if IsHeader(child) then []
    else if child.Tag? then Render(LabelAll(child), StaticPrefix)
    else Render(child, StaticPrefix)
  }

  /** The statement built from the children of the statement block, in order. */
  function StatementOf(children: seq<Node>): string {
    if children == [] then []
    else StatementOf(children[..|children| - 1]) + Piece(children[|children| - 1])
  }

  /** The children of the statement block, or none when the page has no such block. */
  function StatementChildren(soup: seq<Node>): seq<Node> {
    match Find(soup, NamedWith("div", "class", "problem-statement"))
    case Some(block) => block.children
    case None => []
  }

  /** `str(div.title.string)[2:]`: a title without a single string reads as "None", so it becomes "ne". */
  function TitleOf(soup: seq<Node>): (r: Option<string>)
    ensures r.Some? <==> Find(soup, NamedWith("div", "class", "title")).Some?
    ensures r.Some? && StringOf(Find(soup, NamedWith("div", "class", "title")).value).None? ==> r == Some("ne")
    ensures r.Some? && StringOf(Find(soup, NamedWith("div", "class", "title")).value).Some? ==>
      var s := StringOf(Find(soup, NamedWith("div", "class", "title")).value).value;
      r.value == (if |s| <= 2 then "" else s[2..])
  {
    match Find(soup, NamedWith("div", "class", "title"))
    case Some(t) => Some(DropTwo(match StringOf(t) case Some(s) => s case None => "None"))
    case None => None
  }

  /** `div.contents[-1]` of the limit block of class `cls`; an empty block raises IndexError. */
  function LimitOf(soup: seq<Node>, cls: string): (r: Outcome<Option<string>>)
    ensures r.Raised? <==> Find(soup, NamedWith("div", "class", cls)).Some? &&
                           Find(soup, NamedWith("div", "class", cls)).value.children == []
    ensures r.Raised? ==> r.exception == IndexError
    ensures r == Ok(None) <==> Find(soup, NamedWith("div", "class", cls)).None?
  {
    match Find(soup, NamedWith("div", "class", cls))
    case Some(d) =>
      if d.children == [] then Raised(IndexError)
      else Ok(Some(Render(d.children[|d.children| - 1], "")))
    case None => Ok(None)
  }

  /** `problem_parse(response, pid, url)`. */
  function ProblemOf(res: Reply, pid: string, url: string): (o: Outcome<Problem>)
    ensures o.Ok? ==> o.value.remoteOj == Some("Codeforces") && o.value.remoteId == Some(pid) &&
                      o.value.remoteUrl == Some(url)
    ensures !Usable(res) ==> o.Ok? && o.value.status == ProblemRetryable
    ensures Usable(res) && o.Ok? ==> o.value.status == ProblemSuccess
    ensures Usable(res) && o.Ok? ==>
      o.value.html == Some("<html>" + StatementOf(StatementChildren(res.value.soup)) + Script + "</html>")
    ensures o.Raised? <==> Usable(res) && (LimitOf(res.value.soup, "time-limit").Raised? ||
                                           LimitOf(res.value.soup, "memory-limit").Raised?)
    ensures o.Raised? ==> o.exception == IndexError
    ensures Usable(res) && o.Ok? ==>
      o.value.timeLimit == LimitOf(res.value.soup, "time-limit").value &&
      o.value.memoryLimit == LimitOf(res.value.soup, "memory-limit").value &&
      o.value.title == TitleOf(res.value.soup)
  {
    var base := BlankProblem(ProblemRetryable).(remoteOj := Some("Codeforces"), remoteId := Some(pid), remoteUrl := Some(url));
    if !Usable(res) then Ok(base)
    else
      var soup := res.value.soup;
      match LimitOf(soup, "time-limit")
      case Raised(e) => Raised(e)
      case Ok(time) =>
        match LimitOf(soup, "memory-limit")
        case Raised(e) => Raised(e)
        case Ok(memory) =>
          Ok(base.(title := TitleOf(soup), timeLimit := time, memoryLimit := memory,
                   html := Some("<html>" + StatementOf(StatementChildren(soup)) + Script + "</html>"),
                   status := ProblemSuccess))
  }

  /** Labels the grandchildren of one child of the statement block, one at a time. */
  method LabelGrandchildren(child: Node) returns (labelled: Node)
    requires child.Tag?
    ensures labelled == LabelAll(child)
  {
    var grandchildren := child.children;
    var out: seq<Node> := [];
    var j := 0;
    while j < |grandchildren|
      invariant 0 <= j <= |grandchildren|
      invariant |out| == j
      invariant forall k :: 0 <= k < j ==> out[k] == Labelled(grandchildren[k])
    {
      var g := grandchildren[j];
      if g.Tag? {
        if "section-title" in g.classes {
          g := g.(classes := g.classes + [TitleClass], attrs := SetAttr(g.attrs, "style", TitleStyle));
        } else {
          g := g.(classes := g.classes + [ContentClass], attrs := SetAttr(g.attrs, "style", ContentStyle));
        }
      }
      out := out + [g];
      j := j + 1;
    }
    labelled := child.(children := out);
  }

  /** `problem_parse`: the statement is appended child by child. */
  method ProblemParse(res: Reply, pid: string, url: string) returns (o: Outcome<Problem>)
    ensures o == ProblemOf(res, pid, url)
  {
    var problem := BlankProblem(ProblemRetryable).(remoteOj := Some("Codeforces"), remoteId := Some(pid), remoteUrl := Some(url));
    if res.None? {
      return Ok(problem);
    } else if res.value.status == 302 {
      return Ok(problem);
    } else if res.value.status != 200 {
      return Ok(problem);
    } else if res.value.text.None? {
      return Ok(problem);
    }
    var soup := res.value.soup;
    problem := problem.(title := TitleOf(soup));
    var time := LimitOf(soup, "time-limit");
    if time.Raised? {
      return Raised(time.exception);
    }
    var memory := LimitOf(soup, "memory-limit");
    if memory.Raised? {
      return Raised(memory.exception);
    }
    problem := problem.(timeLimit := time.value, memoryLimit := memory.value);
    var html := "";
    var children := StatementChildren(soup);
    var i := 0;
    while i < |children|
      invariant 0 <= i <= |children|
      invariant html == StatementOf(children[..i])
    {
      var child := children[i];
      assert children[..i + 1][..i] == children[..i];
      if IsHeader(child) {
      } else if child.Tag? {
        var labelled := LabelGrandchildren(child);
        html := html + Render(labelled, StaticPrefix);
      } else {
        html := html + Render(child, StaticPrefix);
      }
      i := i + 1;
    }
    assert children[..i] == children;
    problem := problem.(html := Some("<html>" + html + Script + "</html>"), status := ProblemSuccess);
    return Ok(problem);
  }

  /** The statement without the header children of the block. */
  function WithoutHeaders(children: seq<Node>): (r: seq<Node>)
    ensures forall k :: 0 <= k < |r| ==> !IsHeader(r[k])
  {
    if children == [] then []
    else
      var init := WithoutHeaders(children[..|children| - 1]);
      var last := children[|children| - 1];
      if IsHeader(last) then init else init + [last]
  }

  /** Header children contribute nothing: the statement is the same with them removed. */
  lemma {:induction false} HeadersContributeNothing(children: seq<Node>)
    ensures StatementOf(children) == StatementOf(WithoutHeaders(children))
  {
    if children != [] {
      var init := children[..|children| - 1];
      var last := children[|children| - 1];
      HeadersContributeNothing(init);
      if !IsHeader(last) {
        var w := WithoutHeaders(init) + [last];
        assert w[..|w| - 1] == WithoutHeaders(init);
      }
    }
  }

  /**
   * Every tag among the grandchildren gets exactly one role appended to its
   * classes, TITLE exactly when it is a section title, and that role's style;
   * the other grandchildren are left alone.
   */
  lemma LabelRoles(child: Node, k: nat)
    requires child.Tag? && k < |child.children|
    ensures |LabelAll(child).children| == |child.children|
    ensures var g, l := child.children[k], LabelAll(child).children[k];
      if g.Tag? then
        && l.classes == g.classes + [if "section-title" in g.classes then TitleClass else ContentClass]
        && GetAttr(l.attrs, "style") == Some(if "section-title" in g.classes then TitleStyle else ContentStyle)
        && l.name == g.name && l.children == g.children
      else l == g
  {
    var g := child.children[k];
    if g.Tag? {
      GetSetAttr(g.attrs, "style", RoleStyle(g));
    }
  }

  // ----------------------------------------------------------------- results

  /** The `td` cells of the last `tr` of the first table, or None when there is no table or no row. */
  function LastRowCells(soup: seq<Node>): (r: Option<seq<Node>>)
    ensures r.Some? ==> forall k :: 0 <= k < |r.value| ==> r.value[k].Tag?
  {
    match Find(soup, Named("table"))
    case None => None
    case Some(table) =>
      var rows := FindAll(table.children, Named("tr"));
      if rows == [] then None
      else
        var row := rows[|rows| - 1];
        assert row in rows;
        var cells := FindAll(row.children, Named("td"));
        assert forall k :: 0 <= k < |cells| ==> cells[k] in cells;
        Some(cells)
  }

  /** A usable response whose last row has more than nine cells. */
  predicate HasResultRow(res: Reply) {
    Usable(res) && LastRowCells(res.value.soup).Some? && |LastRowCells(res.value.soup).value| > 9
  }

  /** `result_parse(response)`. */
  function ResultOf(res: Reply): (r: Result)
    ensures r.status == ResultSuccess <==> HasResultRow(res)
    ensures !HasResultRow(res) ==> r == BlankResult(ResultError)
    ensures HasResultRow(res) ==>
      var cells := LastRowCells(res.value.soup).value;
      && r.uniqueKey == StringOf(cells[0])
      && r.verdictInfo == Some(Join(StrippedStrings(cells[4]), " "))
      && r.executeTime == StringOf(cells[5])
      && r.executeMemory == StringOf(cells[6])
      // the parser fills `verdict_info` but never `verdict`, so a parsed result carries no verdict
      && r.verdict.None?
  {
    if !HasResultRow(res) then BlankResult(ResultError)
    else
      var cells := LastRowCells(res.value.soup).value;
      Result(StringOf(cells[0]), None, None, Some(Join(StrippedStrings(cells[4]), " ")),
             StringOf(cells[5]), StringOf(cells[6]), ResultSuccess)
  }

  /** `result_parse`: `verdict_info` is built by appending each stripped string and a space, then stripping spaces. */
  method ResultParse(res: Reply) returns (r: Result)
    ensures r == ResultOf(res)
  {
    if res.None? || res.value.status != 200 || res.value.text.None? {
      return BlankResult(ResultError);
    }
    var cells := LastRowCells(res.value.soup);
    if cells.Some? && |cells.value| > 9 {
      var cs := cells.value;
      var items := StrippedStrings(cs[4]);
      var info := "";
      var i := 0;
      while i < |items|
        invariant 0 <= i <= |items|
        invariant info == Spaced(items[..i])
      {
        assert items[..i + 1][..i] == items[..i];
        info := info + items[i] + " ";
        i := i + 1;
      }
      assert items[..i] == items;
      info := StripChar(info, ' ');
      StripSpaced(items);
      return Result(StringOf(cs[0]), None, None, Some(info), StringOf(cs[5]), StringOf(cs[6]), ResultSuccess);
    }
    return BlankResult(ResultError);
  }

  /** `verdict_info` has no space at either end, and is empty exactly when the cell has no text. */
  lemma VerdictInfoTrimmed(cell: Node)
    requires cell.Tag?
    ensures var info := Join(StrippedStrings(cell), " ");
      (info == [] <==> StrippedStrings(cell) == []) &&
      (info != [] ==> info[0] != ' ' && info[|info| - 1] != ' ')
  {
    var items := StrippedStrings(cell);
    if items != [] {
      JoinEnds(items, " ");
    }
  }
}
