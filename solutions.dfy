/**
 * The solution resource: request builders whose setters change one field in
 * place, and a client that joins "solutions" or "solutions/problems/" and the
 * problem id onto the server URL and appends the present page and size.
 */
module Solutions {
  import opened Wrappers
  import opened Decimal
  import opened Text
  import opened Urls
  import opened Paging
  import opened Http

  /** A decoded solution record; the submission instant is kept as milliseconds since the epoch. */
  datatype Solution = Solution(judgeId: U64, userId: string, problemId: string, submissionDate: int)

  /** Builder for listing all solutions. */
  class FindAllRequest {
    var page: Option<U32>
    var size: Option<U32>

    /** The derived `Default`: neither parameter set. */
    constructor Default()
      ensures page == None && size == None
    {
      page := None;
      size := None;
    }

    /** `new`, which delegates to `default`. */
    static method New() returns (r: FindAllRequest)
      ensures fresh(r) && r.page == None && r.size == None
    {
      r := new FindAllRequest.Default();
    }

    /** Sets the page; returns the same request so that calls chain. */
    method SetPage(page: U32) returns (self: FindAllRequest)
      modifies this
      ensures self == this && this.page == Some(page) && size == old(size)
    {
      this.page := Some(page);
      self := this;
    }

    /** Sets the size; returns the same request so that calls chain. */
    method SetSize(size: U32) returns (self: FindAllRequest)
      modifies this
      ensures self == this && this.size == Some(size) && page == old(page)
    {
      this.size := Some(size);
      self := this;
    }
  }

  /** Setting the page twice keeps the second value: the last write wins, and the size
      is untouched throughout. */
  method SetPageTwice(request: FindAllRequest, first: U32, second: U32) returns (self: FindAllRequest)
    modifies request
    ensures self == request && request.page == Some(second) && request.size == old(request.size)
  {
    self := request.SetPage(first);
    self := self.SetPage(second);
  }

  /** Builder for listing the solutions of one problem. */
  class FindByProblemIdRequest {
    var problemId: string
    var page: Option<U32>
    var size: Option<U32>

    /** Stores the id as given, with neither parameter set. */
    constructor (problemId: string)
      ensures this.problemId == problemId && page == None && size == None
    {
      this.problemId := problemId;
      page := None;
      size := None;
    }

    method SetPage(page: U32) returns (self: FindByProblemIdRequest)
      modifies this
      ensures self == this && this.page == Some(page) && size == old(size) && problemId == old(problemId)
    {
      this.page := Some(page);
      self := this;
    }

    method SetSize(size: U32) returns (self: FindByProblemIdRequest)
      modifies this
      ensures self == this && this.size == Some(size) && page == old(page) && problemId == old(problemId)
    {
      this.size := Some(size);
      self := this;
    }
  }

  /** The fixed reference of `find_all` is the single segment "solutions". */
  lemma SolutionsReference()
    ensures Split("solutions", '/') == ["solutions"] && PlainRelativeRef("solutions")
  {
    assert PlainSegment("solutions");
    PlainReference(["solutions"]);
  }

  /** The fixed reference of `find_by_problem_id` ends in an empty segment (a directory). */
  lemma ProblemsReference()
    ensures Split("solutions/problems/", '/') == ["solutions", "problems", ""]
    ensures PlainRelativeRef("solutions/problems/")
  {
    assert PlainSegment("solutions") && PlainSegment("problems") && PlainSegment("");
    assert JoinWith(["solutions", "problems", ""], '/') == "solutions/problems/";
    PlainReference(["solutions", "problems", ""]);
  }

  /** The id is joined onto "solutions/problems/" resolved against the server URL. */
  lemma ProblemIdUnderDirectory(server: Url, problemId: string)
    requires server.path.Segments? && PlainRelativeRef(problemId)
    ensures PlainRelativeRef("solutions/problems/")
    ensures Join(server, "solutions/problems/") == Success(Resolved(server, ["solutions", "problems", ""]))
    ensures Join(Resolved(server, ["solutions", "problems", ""]), problemId)
            == Success(Resolved(server, ["solutions", "problems"] + Split(problemId, '/')))
  {
    ProblemsReference();
    assert DropLast(["solutions", "problems", ""]) == ["solutions", "problems"];
    JoinUnderDirectory(server, ["solutions", "problems", ""], problemId);
  }

  /** The URL `find_all` requests, by reference resolution: the server URL's directory
      followed by "solutions", then the present parameters. It fails only on a server
      URL that cannot be a base. `SolutionClient.FindAll` builds it with `Url::join`. */
  function FindAllTarget(server: Url, page: Option<U32>, size: Option<U32>): (r: Result<Url, ParseError>)
    ensures r.Failure? <==> server.path.Opaque?
    ensures r.Success? ==> SameAuthority(r.value, server) && r.value.fragment == None
  {
    if server.path.Opaque? then Failure(RelativeUrlWithCannotBeABaseBase)
    else Success(Paginate(Resolved(server, ["solutions"]), page, size))
  }

  /** The URL `find_by_problem_id` requests: the server URL's directory followed by
      "solutions", "problems" and the id's segments, then the present parameters, for an
      id that is a plain relative reference. `SolutionClient.FindByProblemId` builds it
      with two calls of `Url::join`. */
  function FindByProblemIdTarget(server: Url, problemId: string, page: Option<U32>, size: Option<U32>)
    : (r: Result<Url, ParseError>)
    requires PlainRelativeRef(problemId)
    ensures r.Failure? <==> server.path.Opaque?
    ensures r.Success? ==> SameAuthority(r.value, server) && r.value.fragment == None
  {
    if server.path.Opaque? then Failure(RelativeUrlWithCannotBeABaseBase)
    else Success(Paginate(Resolved(server, ["solutions", "problems"] + Split(problemId, '/')), page, size))
  }

  /** The query of `find_all`: absent when neither parameter is set; otherwise a "page"
      pair exactly when a page is set and a "size" pair exactly when a size is set, each
      at most once, "page" first, each value the decimal form of its `u32`. */
  lemma FindAllQuery(server: Url, page: Option<U32>, size: Option<U32>, q: seq<Pair>)
    requires server.path.Segments? && q == Pairs(FindAllTarget(server, page, size).value)
    ensures FindAllTarget(server, page, size).value.query == None <==> page.None? && size.None?
    ensures KeyCount(q, "page") == (if page.Some? then 1 else 0)
    ensures KeyCount(q, "size") == (if size.Some? then 1 else 0)
    ensures forall i, j :: 0 <= i < |q| && 0 <= j < |q| && q[i].0 == "page" && q[j].0 == "size" ==> i < j
    ensures (page.Some? <==> Lookup(q, "page").Some?) && (size.Some? <==> Lookup(q, "size").Some?)
    ensures page.Some? ==> DecimalOf(Lookup(q, "page").value, page.value)
    ensures size.Some? ==> DecimalOf(Lookup(q, "size").value, size.value)
    ensures |q| <= 2 && forall i :: 0 <= i < |q| ==> q[i].0 == "page" || q[i].0 == "size"
    ensures forall i :: 0 <= i < |q| ==> IsDigits(q[i].1) && ParseDecimal(q[i].1) < 0x1_0000_0000
  {
    var joined := Resolved(server, ["solutions"]);
    PaginateFresh(joined, page, size, q);
    PaginateBound(joined, page, size, 0x1_0000_0000);
  }

  /** `find_by_problem_id` appends exactly the pairs `find_all` appends for the same
      page and size. */
  lemma SameQueryRules(server: Url, problemId: string, page: Option<U32>, size: Option<U32>)
    requires server.path.Segments? && PlainRelativeRef(problemId)
    ensures FindByProblemIdTarget(server, problemId, page, size).value.query
            == FindAllTarget(server, page, size).value.query
  {
    PaginateQueryOnly(Resolved(server, ["solutions", "problems"] + Split(problemId, '/')),
                      Resolved(server, ["solutions"]), page, size);
  }

  /** Under a server URL whose path ends in '/', the request path is the server's path
      followed by "solutions"; scheme, host and port are the server's. */
  lemma FindAllUnderDirectory(server: Url, page: Option<U32>, size: Option<U32>)
    requires server.path.Segments? && |server.path.segments| > 0
    requires server.path.segments[|server.path.segments| - 1] == ""
    ensures FindAllTarget(server, page, size).Success?
    ensures SameAuthority(FindAllTarget(server, page, size).value, server)
    ensures PathText(FindAllTarget(server, page, size).value.path) == PathText(server.path) + "solutions"
  {
    SolutionsReference();
    DirectoryJoinAppends(server, "solutions");
  }

  /** Under a server URL whose path does not end in '/', its last segment is replaced:
      `https://h/api` gives `https://h/solutions`. */
  lemma FindAllReplacesLastSegment(server: Url)
    requires server.path == Segments(["api"])
    ensures FindAllTarget(server, None, None).Success?
    ensures PathText(FindAllTarget(server, None, None).value.path) == "/solutions"
  {
    assert Merge(["api"], ["solutions"]) == ["solutions"];
  }

  /** A plain id without '/' is the final path segment, and reading the path back gives
      the server's directory, "solutions", "problems" and the id. */
  lemma ProblemIdIsLastSegment(server: Url, problemId: string, page: Option<U32>, size: Option<U32>)
    requires Valid(server) && server.path.Segments? && PlainRelativeRef(problemId) && '/' !in problemId
    ensures var u := FindByProblemIdTarget(server, problemId, page, size).value;
            ParsePath(PathText(u.path)) == DropLast(server.path.segments) + ["solutions", "problems", problemId]
  {
    SplitWithoutSeparator(problemId, '/');
    var tail := ["solutions", "problems", problemId];
    assert ["solutions", "problems"] + Split(problemId, '/') == tail;
    ResolvedPathRoundTrip(server, tail);
  }

  /** The id is not escaped: on a server URL at the root, an id holding '/' becomes
      several segments. */
  lemma ProblemIdWithSlash(server: Url)
    requires server.path == Segments([""])
    ensures PlainRelativeRef("ALDS1/1")
    ensures FindByProblemIdTarget(server, "ALDS1/1", None, None).value.path
            == Segments(["solutions", "problems", "ALDS1", "1"])
  {
    assert PlainSegment("ALDS1") && PlainSegment("1");
    assert JoinWith(["ALDS1", "1"], '/') == "ALDS1/1";
    PlainReference(["ALDS1", "1"]);
    var segs := ["solutions", "problems", "ALDS1", "1"];
    assert Merge([""], segs) == segs;
  }

  /** The characters of the `find_all` example, piece by piece. */
  lemma SolutionsExampleText()
    ensures "/" + "solutions" + "?" + "size" + "=" + "10" == "/solutions?size=10"
  {
  }

  /** The test of `find_all`: with only `size = 10`, a server at a root URL is asked for
      `/solutions?size=10`. */
  lemma FindAllSizeTen(server: Url)
    requires server.path == Segments([""])
    ensures FindAllTarget(server, None, Some(10)).Success?
    ensures PathAndQuery(FindAllTarget(server, None, Some(10)).value) == "/solutions?size=10"
    ensures Href(FindAllTarget(server, None, Some(10)).value) == Origin(server) + "/solutions?size=10"
  {
    var joined := Resolved(server, ["solutions"]);
    assert Merge([""], ["solutions"]) == ["solutions"];
    PaginateSizeOnly(joined, 10);
    assert Render(10) == "10";
    var u := joined.(query := Some([("size", "10")]));
    SinglePairText(u, "size", "10");
    assert JoinWith(["solutions"], '/') == "solutions";
    SolutionsExampleText();
    assert Href(u) == Origin(u) + PathAndQuery(u);
    assert Origin(u) == Origin(server);
  }

  /** The characters of the `find_by_problem_id` example, piece by piece. */
  lemma ProblemsExampleText()
    ensures "/" + ("solutions" + "/" + ("problems" + "/" + "2852")) + "?" + "page" + "=" + "0"
            == "/solutions/problems/2852?page=0"
  {
  }

  /** The URL of the `find_by_problem_id` example, field by field. */
  lemma ProblemsExampleUrl(server: Url)
    requires server.path == Segments([""])
    ensures PlainRelativeRef("2852")
    ensures FindByProblemIdTarget(server, "2852", Some(0), None)
            == Success(server.(path := Segments(["solutions", "problems", "2852"]),
                               query := Some([("page", "0")]), fragment := None))
  {
    assert PlainSegment("2852");
    PlainReference(["2852"]);
    SplitWithoutSeparator("2852", '/');
    var segs := ["solutions", "problems", "2852"];
    assert ["solutions", "problems"] + Split("2852", '/') == segs;
    assert Merge([""], segs) == segs;
    PaginatePageOnly(Resolved(server, segs), 0);
    assert Render(0) == "0";
  }

  /** The test of `find_by_problem_id`: id "2852" with `page = 0` asks for
      `/solutions/problems/2852?page=0`. */
  lemma FindByProblemIdPageZero(server: Url)
    requires server.path == Segments([""])
    ensures PlainRelativeRef("2852")
    ensures FindByProblemIdTarget(server, "2852", Some(0), None).Success?
    ensures PathAndQuery(FindByProblemIdTarget(server, "2852", Some(0), None).value)
            == "/solutions/problems/2852?page=0"
    ensures Href(FindByProblemIdTarget(server, "2852", Some(0), None).value)
            == Origin(server) + "/solutions/problems/2852?page=0"
  {
    ProblemsExampleUrl(server);
    var segs := ["solutions", "problems", "2852"];
    var u := server.(path := Segments(segs), query := Some([("page", "0")]), fragment := None);
    SinglePairText(u, "page", "0");
    assert JoinWith(segs, '/') == "solutions" + "/" + ("problems" + "/" + "2852") by {
      assert segs[1..][1..] == ["2852"];
    }
    ProblemsExampleText();
    assert Href(u) == Origin(u) + PathAndQuery(u);
    assert Origin(u) == Origin(server);
  }

  /** A client bound to the server URL. */
  class SolutionClient {
    const serverUrl: Url

    constructor (serverUrl: Url)
      ensures this.serverUrl == serverUrl
    {
      this.serverUrl := serverUrl;
    }

    /** Builds the URL step by step and fetches the solutions listed there. */
    method FindAll(request: FindAllRequest, fetch: Fetch<seq<Solution>>) returns (r: Result<seq<Solution>, Error>)
      ensures r == Outcome(FindAllTarget(serverUrl, request.page, request.size), fetch)
    {
      SolutionsReference();
      var joined := Join(serverUrl, "solutions");
      if joined.Failure? {
        return Failure(InvalidUrl(joined.error));
      }
      var url := joined.value;
      if request.page.Some? {
        url := AppendPair(url, "page", Render(request.page.value));
      }
      if request.size.Some? {
        url := AppendPair(url, "size", Render(request.size.value));
      }
      r := fetch(Href(url));
    }

    /** Builds the URL step by step and fetches the solutions of the problem. */
    method FindByProblemId(request: FindByProblemIdRequest, fetch: Fetch<seq<Solution>>)
      returns (r: Result<seq<Solution>, Error>)
      requires PlainRelativeRef(request.problemId)
      ensures r == Outcome(FindByProblemIdTarget(serverUrl, request.problemId, request.page, request.size), fetch)
    {
      ProblemsReference();
      var directory := Join(serverUrl, "solutions/problems/");
      if directory.Failure? {
        return Failure(InvalidUrl(directory.error));
      }
      // The base is now hierarchical, so this join cannot fail.
      ProblemIdUnderDirectory(serverUrl, request.problemId);
      var url := Join(directory.value, request.problemId).value;
      assert url == Resolved(serverUrl, ["solutions", "problems"] + Split(request.problemId, '/'));
      if request.page.Some? {
        url := AppendPair(url, "page", Render(request.page.value));
      }
      if request.size.Some? {
        url := AppendPair(url, "size", Render(request.size.value));
      }
      r := fetch(Href(url));
    }
  }

  /** The `find_all` example end to end: a default request with size 10, sent by a client
      of a server at a root URL, fetches `/solutions?size=10` on that server. */
  method FindAllWithSizeTen(server: Url, fetch: Fetch<seq<Solution>>) returns (r: Result<seq<Solution>, Error>)
    requires server.path == Segments([""])
    ensures r == fetch(Origin(server) + "/solutions?size=10")
  {
    var client := new SolutionClient(server);
    var request := new FindAllRequest.Default();
    request := request.SetSize(10);
    FindAllSizeTen(server);
    r := client.FindAll(request, fetch);
  }

  /** The `find_by_problem_id` example end to end: id "2852" with page 0 fetches
      `/solutions/problems/2852?page=0`. */
  method FindByProblemIdWithPageZero(server: Url, fetch: Fetch<seq<Solution>>)
    returns (r: Result<seq<Solution>, Error>)
    requires server.path == Segments([""])
    ensures r == fetch(Origin(server) + "/solutions/problems/2852?page=0")
  {
    var client := new SolutionClient(server);
    var request := new FindByProblemIdRequest("2852");
    request := request.SetPage(0);
    FindByProblemIdPageZero(server);
    r := client.FindByProblemId(request, fetch);
  }
}
