# Request URLs of the online-judge API client

This project models how the client library builds the URL of every request it
sends to the judge's HTTP API, and proves what those URLs are.

The library has two resource clients, and both hold a parsed server URL:

- `SolutionClient` lists all solutions, or the solutions of one problem.
- `UserClient` lists all users, or fetches one user by id.

A listing takes a request builder with an optional `page` and an optional
`size`. Its setters change one field in place and return the same builder.
Each operation builds its URL in the same way:

1. It joins fixed relative references onto the server URL with `Url::join`:
   - `"solutions"`;
   - `"solutions/problems/"`, then the problem id;
   - `"users"`;
   - `"users/"`, then the user id.
2. A listing then appends `("page", n)` when a page is set, and then
   `("size", n)` when a size is set.
3. The operation fetches the serialised URL.

The model has these modules:

- `Decimal`: the integer widths `u16`, `u32` and `usize`, and Rust's `to_string` for unsigned integers (`Render`) with its inverse (`ParseDecimal`).
- `Text`: splitting a string at a separator and joining parts with it.
- `Urls`: a URL as a value (scheme, authority, path segments, optional query pairs, fragment), and `Url::join` for the plain relative-path references these clients use. The join follows the resolution of section 5.2.2 of RFC 3986 and the merge of section 5.2.3. The module also covers `append_pair`, and how the path and query are serialised and read back.
- `Paging`: the conditional page/size appending that all three listings share.
- `Http`: the GET-and-decode step. It is a `fetch` function parameter applied to the serialised URL.
- `Solutions` and `Users`: the request builders as classes with fields that the setters update, and the clients as classes.
  - Each client method builds its URL step by step, as the source does, and ends with `fetch`.
  - Each method is proved equal to a reference definition of its target URL (`FindAllTarget`, `FindByProblemIdTarget`, `FindByIdTarget`).
  - The properties of the target URLs are proved as lemmas.

## Behaviour a caller might not expect

- **Ids are joined unescaped** (src/solution.rs:97, src/user.rs:61). An id holding '/' becomes several path segments: `Solutions.ProblemIdWithSlash` shows that `ALDS1/1` gives the segments `ALDS1` and `1`. Ids that would need percent-encoding are outside the model (see "Left out").
- **The request path is resolved, not appended** (src/solution.rs:78). `Url::join` resolves the reference against the server URL.
  - When the server path ends in `/`, the resource path is appended (`Solutions.FindAllUnderDirectory`).
  - When it does not, the last segment of the server path is replaced (`Solutions.FindAllReplacesLastSegment`: `/api` gives `/solutions`).
- **No status code is inspected** (src/solution.rs:85, src/user.rs:62). Every failure of the GET or of decoding the JSON body comes back through `?`. In the model these are all failures of `fetch` (`Http.Error.Transfer`).
- **`src/solution.rs` is not compiled.** `src/lib.rs` declares only `mod user`, so `src/solution.rs` is not part of the built crate. It is modelled as written.

## Model

| member | source | states |
|---|---|---|
| Decimal.Render | src/solution.rs:80 | `to_string` of an unsigned integer is a canonical decimal string: only digits, and no leading zero except in "0"; it has one digit exactly when the number is below 10 |
| Decimal.ParseRender | src/solution.rs:80 | parsing the rendered value gives the number back |
| Decimal.RenderParse | src/solution.rs:83 | every canonical decimal string is the rendering of its value, so rendering produces exactly the canonical strings |
| Decimal.RenderInjective | src/solution.rs:79-84 | distinct page or size values render to distinct query values |
| Text.SplitJoin | src/solution.rs:94-97 | splitting joined parts at the separator gives the parts back, when no part holds the separator |
| Text.JoinSplit | src/solution.rs:94-97 | joining the pieces of a split gives the string back |
| Urls.PlainReference | src/solution.rs:96 | plain segments joined with '/' form a plain relative reference that splits back into those segments |
| Urls.Join | src/solution.rs:78 | joining fails exactly on a cannot-be-a-base server URL; otherwise it keeps scheme, user information, host and port, drops the fragment, replaces the last path segment by the reference's segments and clears the query; an empty reference keeps path and query; segments stay free of '/' |
| Urls.JoinUnderDirectory | src/solution.rs:94-97 | joining an id onto a URL resolved to a directory (last segment empty) replaces that empty segment by the id's segments |
| Urls.DirectoryJoinAppends | src/solution.rs:78 | on a base whose path ends in '/', the joined path text is the base path text followed by the reference |
| Urls.AppendPair | src/solution.rs:80 | `append_pair` adds the pair after the existing pairs, creates a query when there was none, and changes nothing else |
| Urls.QueryRoundTrip | src/solution.rs:79-84 | reading the serialised query back gives the appended pairs in order, when keys and values pass form encoding unchanged |
| Urls.ResolvedPathRoundTrip | src/solution.rs:94-97 | the path of a resolved URL reads back as the base's directory followed by the reference's segments, when none holds '/' |
| Urls.PathRoundTrip | src/solution.rs:94-97 | reading the serialised path back gives its segments, when no segment holds '/' |
| Urls.SinglePairText | src/solution.rs:85 | a path with a single query pair is sent as `/segments?key=value` |
| Paging.Paginate | src/solution.rs:79-84 | only the query changes; the old pairs stay as a prefix; the query is created unless both parameters are absent; each key's count grows by one exactly when its parameter is present |
| Paging.PaginateFresh | src/solution.rs:79-84 | on a URL without a query: at most two pairs, keys only "page" and "size", each at most once and exactly when present, "page" before "size", each value the canonical decimal of its number, which parses back, and nothing that form encoding would change |
| Paging.PaginateBound | src/solution.rs:29-30 | every appended value is a decimal string whose number is below the parameters' bound |
| Paging.PaginateNothing | src/solution.rs:79-84 | with neither parameter the URL is unchanged |
| Paging.PaginatePageOnly | src/solution.rs:79-81 | a page alone becomes the only pair, `("page", decimal)` |
| Paging.PaginateSizeOnly | src/solution.rs:82-84 | a size alone becomes the only pair, `("size", decimal)` |
| Paging.PaginateQueryOnly | src/solution.rs:98-103 | the appended pairs depend on the parameters and the old query only, not on the path |
| Paging.DecimalIsFormInert | src/solution.rs:80 | decimal values pass through form encoding unchanged |
| Solutions.FindAllRequest.Default | src/solution.rs:27-31 | a default request has neither page nor size |
| Solutions.FindAllRequest.New | src/solution.rs:34-36 | `new` gives a fresh request with neither page nor size |
| Solutions.FindAllRequest.SetPage | src/solution.rs:38-41 | sets the page, leaves the size, returns the same request |
| Solutions.FindAllRequest.SetSize | src/solution.rs:43-46 | sets the size, leaves the page, returns the same request |
| Solutions.SetPageTwice | src/solution.rs:38-41 | two page settings in a row leave the second value, and the size is unchanged |
| Solutions.FindByProblemIdRequest.constructor | src/solution.rs:56-62 | stores the id unchanged, with neither page nor size |
| Solutions.FindByProblemIdRequest.SetPage | src/solution.rs:64-67 | sets the page, leaves the size and the id, returns the same request |
| Solutions.FindByProblemIdRequest.SetSize | src/solution.rs:69-72 | sets the size, leaves the page and the id, returns the same request |
| Solutions.SolutionsReference | src/solution.rs:78 | "solutions" is a plain reference of one segment |
| Solutions.ProblemsReference | src/solution.rs:96 | "solutions/problems/" is a plain reference whose last segment is empty |
| Solutions.ProblemIdUnderDirectory | src/solution.rs:94-97 | the two joins give the server directory followed by "solutions", "problems" and the id's segments |
| Solutions.FindAllTarget | src/solution.rs:77-84 | the request URL exists exactly when the server URL can be a base, and keeps the server's scheme, host and port with no fragment |
| Solutions.FindByProblemIdTarget | src/solution.rs:94-103 | for an id that is a plain relative reference: the problem's URL exists exactly when the server URL can be a base, and keeps the server's scheme, host and port with no fragment |
| Solutions.FindAllQuery | src/solution.rs:79-84 | no query when neither parameter is set; otherwise "page" exactly when a page is set and "size" exactly when a size is set, each at most once and no other key, "page" first, values parsing back to the parameters and below 2^32 |
| Solutions.SameQueryRules | src/solution.rs:98-103 | `find_by_problem_id` appends exactly the pairs that `find_all` appends for the same page and size |
| Solutions.FindAllUnderDirectory | src/solution.rs:78 | under a server path ending in '/', the request path is that path followed by "solutions", on the same scheme, host and port |
| Solutions.FindAllReplacesLastSegment | src/solution.rs:78 | under the server path `/api`, the request path is `/solutions` |
| Solutions.ProblemIdIsLastSegment | src/solution.rs:94-97 | a plain id without '/' is the last path segment, and the path reads back as the server directory, "solutions", "problems", id |
| Solutions.ProblemIdWithSlash | src/solution.rs:97 | the id is not escaped: "ALDS1/1" gives the segments "solutions", "problems", "ALDS1", "1" |
| Solutions.FindAllSizeTen | src/solution.rs:118-130 | with only size 10 on a root server URL, the request is `/solutions?size=10` on the server's origin |
| Solutions.ProblemsExampleUrl | src/solution.rs:144-156 | id "2852" with page 0 gives the path `solutions/problems/2852` and the single pair `page=0` |
| Solutions.FindByProblemIdPageZero | src/solution.rs:144-156 | id "2852" with page 0 on a root server URL requests `/solutions/problems/2852?page=0` |
| Solutions.SolutionClient.constructor | src/solution.rs:11-14 | the client keeps the server URL |
| Solutions.SolutionClient.FindAll | src/solution.rs:77-87 | a failed join is returned as an invalid-URL error and nothing is fetched; otherwise the result is the fetch of `FindAllTarget` |
| Solutions.SolutionClient.FindByProblemId | src/solution.rs:90-106 | the same, with the two joins and `FindByProblemIdTarget` |
| Solutions.FindAllWithSizeTen | src/solution.rs:126-130 | a default request with size 10, sent through a client, fetches `<origin>/solutions?size=10` |
| Solutions.FindByProblemIdWithPageZero | src/solution.rs:152-156 | request "2852" with page 0, sent through a client, fetches `<origin>/solutions/problems/2852?page=0` |
| Users.FindAllRequest.Default | src/user.rs:23-27 | a default request has neither page nor size |
| Users.FindAllRequest.New | src/user.rs:30-32 | `new` gives a fresh request with neither page nor size |
| Users.FindAllRequest.SetPage | src/user.rs:34-37 | sets the page, leaves the size, returns the same request |
| Users.FindAllRequest.SetSize | src/user.rs:39-42 | sets the size, leaves the page, returns the same request |
| Users.UsersReference | src/user.rs:48 | "users" is a plain reference of one segment |
| Users.UsersDirectoryReference | src/user.rs:61 | "users/" is a plain reference whose last segment is empty |
| Users.UserIdUnderDirectory | src/user.rs:61 | the two joins give the server directory followed by "users" and the id's segments |
| Users.FindAllTarget | src/user.rs:48-54 | the request URL exists exactly when the server URL can be a base, and keeps the server's scheme, host and port with no fragment |
| Users.FindByIdTarget | src/user.rs:60-63 | for an id that is a plain relative reference: the URL exists exactly when the server URL can be a base, keeps the server's scheme, host and port, and has no fragment and no query, so only the path is sent |
| Users.FindAllQuery | src/user.rs:49-54 | no query when neither parameter is set; otherwise "page" exactly when a page is set and "size" exactly when a size is set, each at most once and no other key, "page" first, values parsing back to the parameters and below 2^64 |
| Users.UsersOnRoot | src/user.rs:48 | on a root server URL the path is the single segment "users", on the same scheme, host and port |
| Users.UserIdIsLastSegment | src/user.rs:61 | a plain id without '/' is the last path segment, and the path reads back as the server directory, "users", id |
| Users.FindAllSizeTen | src/user.rs:74-86 | with only size 10 on a root server URL, the request is `/users?size=10` on the server's origin |
| Users.UserExampleUrl | src/user.rs:99-109 | id "ichyo" gives the path `users/ichyo` and no query |
| Users.FindByIdIchyo | src/user.rs:99-109 | id "ichyo" on a root server URL requests `/users/ichyo` |
| Users.UserClient.constructor | src/user.rs:10-12 | the client keeps the server URL |
| Users.UserClient.FindAll | src/user.rs:47-57 | a failed join is returned as an invalid-URL error and nothing is fetched; otherwise the result is the fetch of `FindAllTarget` |
| Users.UserClient.FindById | src/user.rs:60-64 | the same, with the two joins and `FindByIdTarget` |
| Users.FindAllWithSizeTen | src/user.rs:82-86 | a default request with size 10, sent through a client, fetches `<origin>/users?size=10` |
| Users.FindByIdOfIchyo | src/user.rs:107-109 | `find_by_id("ichyo")` through a client fetches `<origin>/users/ichyo` |

## Left out

- Solutions.SolutionClient.FindByProblemId: requires the id to be a plain relative reference. The source accepts any string. A plain reference is empty, or has no leading '/' and segments made of unreserved characters, sub-delimiters and '@', none of them "." or "..".
- Users.UserClient.FindById: has the same restriction on the user id as FindByProblemId.
- Solutions.FindByProblemIdTarget, Solutions.SameQueryRules, Solutions.ProblemIdIsLastSegment, Users.FindByIdTarget and Users.UserIdIsLastSegment: state their properties only for plain ids, for the same reason. For other ids `Url::join` can give a query ("a?b"), a fragment ("a#b"), another scheme ("x:y") or drop a segment (".."), which the model does not capture.
- Urls.Join: models `Url::join` only for plain relative references. Absolute references, references with a scheme, query or fragment, dot-segment removal and percent-encoding belong to the `url` crate. The clients never pass those, apart from unusual ids.
- The HTTP GET and the JSON decoding (`reqwest::get(...)?.json()?`) are a `fetch` parameter. Its failures are not split by kind, because the code does not split them either.
- Form encoding of query pairs is not modelled. The model proves instead that every key and value it appends is one that form encoding leaves unchanged (`Paging.PaginateFresh`).
- `Url::parse`, and `src/lib.rs` (`Client::new`, `Client::default` with its constant server URL, `user_client`). The server URL is taken as an already parsed value.
- The serialised origin (`Urls.Origin`) uses one simple form: scheme, optional `//` authority, optional port. Host normalisation, default-port elision and IPv6 brackets belong to `Url::parse`, which is not modelled.
- The `Solution` and `User` records are result types only. Their field names and their serde renaming are not modelled. `submission_date` is integer milliseconds instead of a `chrono` timestamp.
- `usize` is taken as 64 bits wide (`Decimal.U64`).
- The clients hold a borrowed `&Url`. The model keeps an immutable copy, which behaves the same because the clients never change it.
- The example program `show_solution.rs` only prints results, and it refers to items that do not exist.
