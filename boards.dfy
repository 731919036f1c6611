/**
 * The curated job boards and the search queries built for them (lib/boards.ts).
 */
module Boards {
  import opened Basics
  import opened Jobs

  /** `("t1" OR "t2" OR ...)`: a parenthesised disjunction of quoted phrases. */
  function OrGroup(terms: seq<string>): (g: string)
    ensures |g| >= 2 && g[0] == '(' && g[|g| - 1] == ')'
  {
    "(" + JoinOr(terms) + ")"
  }

  function JoinOr(terms: seq<string>): string {
    if terms == [] then ""
    else if |terms| == 1 then "\"" + terms[0] + "\""
    else "\"" + terms[0] + "\" OR " + JoinOr(terms[1..])
  }

  /** The role keywords every curated-board query carries. */
  const UX_KEYWORDS: string :=
    OrGroup(["UX research", "user research", "UX researcher", "user researcher", "design researcher", "usability"])

  /** A search-engine site scope: "site:" followed by a host and path. */
  function Site(scope: string): (q: string)
    ensures StartsWith(q, "site:") && q[5..] == scope
  {
    var q := "site:" + scope;
    assert q[..5] == "site:";
    q
  }

  const BOARDS: seq<BoardConfig> := [
    BoardConfig("Remotive", Site("remotive.com/remote/jobs"), Curated),
    BoardConfig("We Work Remotely", Site("weworkremotely.com/remote-jobs"), Curated),
    BoardConfig("Dribbble", Site("dribbble.com/jobs"), Curated),
    BoardConfig("User Interviews", Site("userinterviews.com/ux-job-board"), Curated),
    BoardConfig("Lisbon UX", Site("jobs.lisboaux.com"), Curated)
  ]

  /** The board table: five boards with distinct names, all curated, each
      scoped to its site with a "site:" query. */
  lemma BoardsWellFormed()
    ensures |BOARDS| == 5
    ensures forall i, j :: 0 <= i < j < |BOARDS| ==> BOARDS[i].name != BOARDS[j].name
    ensures forall i :: 0 <= i < |BOARDS| ==> BOARDS[i].layer == Curated
    ensures forall i :: 0 <= i < |BOARDS| ==> StartsWith(BOARDS[i].siteQuery, "site:")
  {
    // the names already differ in their first letter
    assert BOARDS[0].name[0] == 'R' && BOARDS[1].name[0] == 'W' && BOARDS[2].name[0] == 'D';
    assert BOARDS[3].name[0] == 'U' && BOARDS[4].name[0] == 'L';
  }

  /** The query for a curated board: its site scope, the role keywords and "remote". */
  function BuildBoardQuery(board: BoardConfig): (q: string)
    ensures |q| == |board.siteQuery| + 1 + |UX_KEYWORDS| + 7
    ensures StartsWith(q, board.siteQuery + " ")
    ensures EndsWith(q, " remote")
    ensures q[|board.siteQuery| + 1 .. |q| - 7] == UX_KEYWORDS
  {
    var q := board.siteQuery + " " + UX_KEYWORDS + " remote";
    assert q[..|board.siteQuery| + 1] == board.siteQuery + " ";
    assert q[|board.siteQuery| + 1 .. |q| - 7] == UX_KEYWORDS;
    q
  }

  /** Boards with different site scopes never share a query. */
  lemma BoardQueryInjective(a: BoardConfig, b: BoardConfig)
    requires BuildBoardQuery(a) == BuildBoardQuery(b)
    ensures a.siteQuery == b.siteQuery
  {
    var q := BuildBoardQuery(a);
    assert |a.siteQuery| == |b.siteQuery| by {
      assert |q| == |a.siteQuery| + 1 + |UX_KEYWORDS| + 7;
      assert |q| == |b.siteQuery| + 1 + |UX_KEYWORDS| + 7;
    }
    assert a.siteQuery == q[..|a.siteQuery|];
    assert b.siteQuery == q[..|b.siteQuery|];
  }

  /** The role keywords of the discovery query, each with "remote" in front. */
  const DISCOVERY_KEYWORDS: string :=
    OrGroup(["remote UX researcher", "remote UX research", "remote user researcher", "remote design researcher", "remote usability"])

  /** The broad query of the discovery tier, with no site scope. */
  function BuildDiscoveryQuery(): (q: string)
    ensures StartsWith(q, "(") && EndsWith(q, " jobs")
    ensures !StartsWith(q, "site:")
  {
    var q := DISCOVERY_KEYWORDS + " jobs";
    assert DISCOVERY_KEYWORDS[0] == '(';
    assert q[0] == DISCOVERY_KEYWORDS[0];
    assert q[..1] == "(";
    assert q[|q| - 5..] == " jobs";
    q
  }

  /** No board query is the discovery query: every board query starts with its
      "site:" scope and the discovery query does not. */
  lemma DiscoveryIsNotABoardQuery(i: nat)
    requires i < |BOARDS|
    ensures BuildBoardQuery(BOARDS[i]) != BuildDiscoveryQuery()
  {
    BoardsWellFormed();
    var q := BuildBoardQuery(BOARDS[i]);
    assert q[..5] == BOARDS[i].siteQuery[..5] == "site:";
    assert BuildDiscoveryQuery()[0] == '(';
  }
}
