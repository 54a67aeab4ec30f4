/**
 * The user resource: a request builder whose setters change one field in place,
 * and a client that joins "users", or "users/" and then the user id, onto the
 * server URL. Only the listing appends page and size.
 */
module Users {
  import opened Wrappers
  import opened Decimal
  import opened Text
  import opened Urls
  import opened Paging
  import opened Http

  /** A decoded user record. */
  datatype User = User(id: string, name: string, affiliation: string)

  /** Builder for listing all users; `usize` is taken to be 64 bits wide. */
  class FindAllRequest {
    var page: Option<U64>
    var size: Option<U64>

    /** The derived `Default`: neither parameter set. */
    constructor Default()
      ensures page == None && size == None
    {
      page := None;
      size := None;
    }

    /** `new`, which delegates to `default`. */
    static method New() returns (r: FindAllRequest)
      ensures fresh(r) && r.page == None && r.size == None
    {
      r := new FindAllRequest.Default();
    }

    /** Sets the page; returns the same request so that calls chain. */
    method SetPage(page: U64) returns (self: FindAllRequest)
      modifies this
      ensures self == this && this.page == Some(page) && size == old(size)
    {
      this.page := Some(page);
      self := this;
    }

    /** Sets the size; returns the same request so that calls chain. */
    method SetSize(size: U64) returns (self: FindAllRequest)
      modifies this
      ensures self == this && this.size == Some(size) && page == old(page)
    {
      this.size := Some(size);
      self := this;
    }
  }

  /** The fixed reference of `find_all` is the single segment "users". */
  lemma UsersReference()
    ensures Split("users", '/') == ["users"] && PlainRelativeRef("users")
  {
    assert PlainSegment("users");
    PlainReference(["users"]);
  }

  /** The first reference of `find_by_id` ends in an empty segment (a directory). */
  lemma UsersDirectoryReference()
    ensures Split("users/", '/') == ["users", ""]
    ensures PlainRelativeRef("users/")
  {
    assert PlainSegment("users") && PlainSegment("");
    assert JoinWith(["users", ""], '/') == "users/";
    PlainReference(["users", ""]);
  }

  /** The id is joined onto "users/" resolved against the server URL. */
  lemma UserIdUnderDirectory(server: Url, userId: string)
    requires server.path.Segments? && PlainRelativeRef(userId)
    ensures PlainRelativeRef("users/")
    ensures Join(server, "users/") == Success(Resolved(server, ["users", ""]))
    ensures Join(Resolved(server, ["users", ""]), userId)
            == Success(Resolved(server, ["users"] + Split(userId, '/')))
  {
    UsersDirectoryReference();
    assert DropLast(["users", ""]) == ["users"];
    JoinUnderDirectory(server, ["users", ""], userId);
  }

  /** The URL `find_all` requests, by reference resolution: the server URL's directory
      followed by "users", then the present parameters. `UserClient.FindAll` builds it
      with `Url::join`. */
  function FindAllTarget(server: Url, page: Option<U64>, size: Option<U64>): (r: Result<Url, ParseError>)
    ensures r.Failure? <==> server.path.Opaque?
    ensures r.Success? ==> SameAuthority(r.value, server) && r.value.fragment == None
  {
    if server.path.Opaque? then Failure(RelativeUrlWithCannotBeABaseBase)
    else Success(Paginate(Resolved(server, ["users"]), page, size))
  }

  /** The URL `find_by_id` requests for an id that is a plain relative reference: the
      server URL's directory followed by "users" and the id's segments, with no query.
      `UserClient.FindById` builds it with two calls of `Url::join`. */
  function FindByIdTarget(server: Url, userId: string): (r: Result<Url, ParseError>)
    requires PlainRelativeRef(userId)
    ensures r.Failure? <==> server.path.Opaque?
    ensures r.Success? ==> SameAuthority(r.value, server) && r.value.fragment == None
    ensures r.Success? ==> r.value.query == None && PathAndQuery(r.value) == PathText(r.value.path)
  {
    if server.path.Opaque? then Failure(RelativeUrlWithCannotBeABaseBase)
    else Success(Resolved(server, ["users"] + Split(userId, '/')))
  }

  /** The query of `find_all`: absent when neither parameter is set; otherwise a "page"
      pair exactly when a page is set and a "size" pair exactly when a size is set, each
      at most once, "page" first, each value the decimal form of its `usize`. */
  lemma FindAllQuery(server: Url, page: Option<U64>, size: Option<U64>, q: seq<Pair>)
    requires server.path.Segments? && q == Pairs(FindAllTarget(server, page, size).value)
    ensures FindAllTarget(server, page, size).value.query == None <==> page.None? && size.None?
    ensures KeyCount(q, "page") == (if page.Some? then 1 else 0)
    ensures KeyCount(q, "size") == (if size.Some? then 1 else 0)
    ensures forall i, j :: 0 <= i < |q| && 0 <= j < |q| && q[i].0 == "page" && q[j].0 == "size" ==> i < j
    ensures (page.Some? <==> Lookup(q, "page").Some?) && (size.Some? <==> Lookup(q, "size").Some?)
    ensures page.Some? ==> DecimalOf(Lookup(q, "page").value, page.value)
    ensures size.Some? ==> DecimalOf(Lookup(q, "size").value, size.value)
    ensures |q| <= 2 && forall i :: 0 <= i < |q| ==> q[i].0 == "page" || q[i].0 == "size"
    ensures forall i :: 0 <= i < |q| ==> IsDigits(q[i].1) && ParseDecimal(q[i].1) < 0x1_0000_0000_0000_0000
  {
    var joined := Resolved(server, ["users"]);
    PaginateFresh(joined, page, size, q);
    PaginateBound(joined, page, size, 0x1_0000_0000_0000_0000);
  }

  /** On a server URL whose path is the root, `find_all` asks for the single segment
      "users" on the same scheme, host and port. */
  lemma UsersOnRoot(server: Url, page: Option<U64>, size: Option<U64>)
    requires server.path == Segments([""])
    ensures FindAllTarget(server, page, size).Success?
    ensures FindAllTarget(server, page, size).value.path == Segments(["users"])
    ensures SameAuthority(FindAllTarget(server, page, size).value, server)
  {
    assert Merge([""], ["users"]) == ["users"];
  }

  /** A plain id without '/' is the final path segment, and reading the path back gives
      the server's directory, "users" and the id. */
  lemma UserIdIsLastSegment(server: Url, userId: string)
    requires Valid(server) && server.path.Segments? && PlainRelativeRef(userId) && '/' !in userId
    ensures ParsePath(PathText(FindByIdTarget(server, userId).value.path))
            == DropLast(server.path.segments) + ["users", userId]
  {
    SplitWithoutSeparator(userId, '/');
    var tail := ["users", userId];
    assert ["users"] + Split(userId, '/') == tail;
    ResolvedPathRoundTrip(server, tail);
  }

  /** The characters of the `find_all` example, piece by piece. */
  lemma UsersExampleText()
    ensures "/" + "users" + "?" + "size" + "=" + "10" == "/users?size=10"
  {
  }

  /** The test of `find_all`: with only `size = 10`, a server at a root URL is asked for
      `/users?size=10`. */
  lemma FindAllSizeTen(server: Url)
    requires server.path == Segments([""])
    ensures FindAllTarget(server, None, Some(10)).Success?
    ensures PathAndQuery(FindAllTarget(server, None, Some(10)).value) == "/users?size=10"
    ensures Href(FindAllTarget(server, None, Some(10)).value) == Origin(server) + "/users?size=10"
  {
    var joined := Resolved(server, ["users"]);
    assert Merge([""], ["users"]) == ["users"];
    PaginateSizeOnly(joined, 10);
    assert Render(10) == "10";
    var u := joined.(query := Some([("size", "10")]));
    SinglePairText(u, "size", "10");
    assert JoinWith(["users"], '/') == "users";
    UsersExampleText();
    assert Href(u) == Origin(u) + PathAndQuery(u);
    assert Origin(u) == Origin(server);
  }

  /** The characters of the `find_by_id` example, piece by piece. */
  lemma UserExampleText()
    ensures "/" + ("users" + "/" + "ichyo") == "/users/ichyo"
  {
  }

  /** The URL of the `find_by_id` example, field by field. */
  lemma UserExampleUrl(server: Url)
    requires server.path == Segments([""])
    ensures PlainRelativeRef("ichyo")
    ensures FindByIdTarget(server, "ichyo")
            == Success(server.(path := Segments(["users", "ichyo"]), query := None, fragment := None))
  {
    assert PlainSegment("ichyo");
    PlainReference(["ichyo"]);
    SplitWithoutSeparator("ichyo", '/');
    var segs := ["users", "ichyo"];
    assert ["users"] + Split("ichyo", '/') == segs;
    assert Merge([""], segs) == segs;
  }

  /** The test of `find_by_id`: id "ichyo" asks for `/users/ichyo`. */
  lemma FindByIdIchyo(server: Url)
    requires server.path == Segments([""])
    ensures PlainRelativeRef("ichyo")
    ensures FindByIdTarget(server, "ichyo").Success?
    ensures PathAndQuery(FindByIdTarget(server, "ichyo").value) == "/users/ichyo"
    ensures Href(FindByIdTarget(server, "ichyo").value) == Origin(server) + "/users/ichyo"
  {
    UserExampleUrl(server);
    var segs := ["users", "ichyo"];
    var u := server.(path := Segments(segs), query := None, fragment := None);
    assert JoinWith(segs, '/') == "users" + "/" + "ichyo" by {
      assert segs[1..] == ["ichyo"];
    }
    UserExampleText();
    assert Href(u) == Origin(u) + PathAndQuery(u);
    assert Origin(u) == Origin(server);
  }

  /** A client bound to the server URL. */
  class UserClient {
    const serverUrl: Url

    constructor (serverUrl: Url)
      ensures this.serverUrl == serverUrl
    {
      this.serverUrl := serverUrl;
    }

    /** Builds the URL step by step and fetches the users listed there. */
    method FindAll(request: FindAllRequest, fetch: Fetch<seq<User>>) returns (r: Result<seq<User>, Error>)
      ensures r == Outcome(FindAllTarget(serverUrl, request.page, request.size), fetch)
    {
      UsersReference();
      var joined := Join(serverUrl, "users");
      if joined.Failure? {
        return Failure(InvalidUrl(joined.error));
      }
      var url := joined.value;
      if request.page.Some? {
        url := AppendPair(url, "page", Render(request.page.value));
      }
      if request.size.Some? {
        url := AppendPair(url, "size", Render(request.size.value));
      }
      r := fetch(Href(url));
    }

    /** Joins "users/" and then the id, and fetches the user found there. */
    method FindById(userId: string, fetch: Fetch<User>) returns (r: Result<User, Error>)
      requires PlainRelativeRef(userId)
      ensures r == Outcome(FindByIdTarget(serverUrl, userId), fetch)
    {
      UsersDirectoryReference();
      var directory := Join(serverUrl, "users/");
      if directory.Failure? {
        return Failure(InvalidUrl(directory.error));
      }
      // The base is now hierarchical, so this join cannot fail.
      UserIdUnderDirectory(serverUrl, userId);
      var url := Join(directory.value, userId).value;
      r := fetch(Href(url));
    }
  }

  /** The `find_all` example end to end: a default request with size 10 fetches
      `/users?size=10` on a server at a root URL. */
  method FindAllWithSizeTen(server: Url, fetch: Fetch<seq<User>>) returns (r: Result<seq<User>, Error>)
    requires server.path == Segments([""])
    ensures r == fetch(Origin(server) + "/users?size=10")
  {
    var client := new UserClient(server);
    var request := new FindAllRequest.Default();
    request := request.SetSize(10);
    FindAllSizeTen(server);
    r := client.FindAll(request, fetch);
  }

  /** The `find_by_id` example end to end: id "ichyo" fetches `/users/ichyo`. */
  method FindByIdOfIchyo(server: Url, fetch: Fetch<User>) returns (r: Result<User, Error>)
    requires server.path == Segments([""])
    ensures r == fetch(Origin(server) + "/users/ichyo")
  {
    var client := new UserClient(server);
    FindByIdIchyo(server);
    r := client.FindById("ichyo", fetch);
  }
}
