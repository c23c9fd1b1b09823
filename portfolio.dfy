/** The portfolio payload that both generation handlers receive, and the parts
    of prompt rendering they share: the first-ten listing, numbering from 1,
    and the README excerpt cut to a backend-specific length. */
module Portfolio {
  import opened Js

  /** The `user` projection of the payload. Counts are naturals; `name`, `bio`
      and `email` may be missing. */
  datatype User = User(
    login: string,
    name: Option<string>,
    bio: Option<string>,
    followers: nat,
    following: nat,
    publicRepos: nat,
    email: Option<string>)

  /** One entry of `repositories`: the repository summary merged with its
      README result. A missing `hasReadme` reads as `false`. */
  datatype Repo = Repo(
    name: string,
    description: Option<string>,
    language: Option<string>,
    stars: nat,
    forks: nat,
    createdAt: string,
    updatedAt: string,
    topics: Option<seq<string>>,
    hasReadme: bool,
    readme: Option<string>)

  /** `portfolioData` as the handlers read it. `Absent` is any falsy value
      (missing, `null`, `false`, `0`, `""`); `Given` is a truthy value whose
      `user` and `repositories` may be missing (`None` also stands for a
      `repositories` value that is not an array). */
  datatype PortfolioData = Absent | Given(user: Option<User>, repositories: Option<seq<Repo>>)

  /** The outcome of `await request.json()` followed by destructuring
      `{ portfolioData }`: the body may not parse, may be JSON `null` (so the
      destructuring throws), or yields the `portfolioData` property. */
  datatype RequestBody = Unreadable | NullBody | Body(portfolioData: PortfolioData)

  /** A body whose payload can be rendered into a prompt without throwing. */
  predicate Renderable(body: RequestBody)
  {
    body.Body? && body.portfolioData.Given?
    && body.portfolioData.user.Some? && body.portfolioData.repositories.Some?
  }

  /** How many repositories a prompt lists at most. */
  const ListLimit: nat := 10

  /** The fallbacks both prompts put in place of a falsy field. */
  const NoBio: string := "정보 없음"
  const NoDescription: string := "설명 없음"
  const NoLanguage: string := "언어 정보 없음"

  /** `repositories.slice(0, 10)`: the listed repositories are the first ones, in order. */
  function Listed(repos: seq<Repo>): (r: seq<Repo>)
    ensures |r| == Min(ListLimit, |repos|)
    ensures r == repos[..|r|]
  {
    repos[..Min(ListLimit, |repos|)]
  }

  /** `.slice(0, 10).map((repo, index) => entry(index, repo))`: the listed
      repositories, each rendered with its zero-based position. */
  function Entries(repos: seq<Repo>, entry: (nat, Repo) -> string): (r: seq<string>)
    ensures |r| == Min(ListLimit, |repos|)
    ensures forall i | 0 <= i < |r| :: r[i] == entry(i, repos[i])
  {
    var listed := Listed(repos);
    seq(|listed|, i requires 0 <= i < |listed| => entry(i, listed[i]))
  }

  /** The project listing of a prompt: the entries joined with no separator. */
  function Listing(repos: seq<Repo>, entry: (nat, Repo) -> string): string
  {
    Join(Entries(repos, entry), "")
  }

  /** `${repo.readme ? `${caption}${repo.readme.substring(0, limit)}...` : ""}`:
      nothing for a falsy README; otherwise the caption, the first
      `min(limit, length)` characters of the README and an ellipsis, which is
      appended even when nothing was cut. */
  function ReadmeExcerpt(caption: string, readme: Option<string>, limit: nat): (r: string)
    requires caption != ""
    ensures r == "" <==> !Truthy(readme)
    ensures Truthy(readme) ==>
      var n := Min(limit, |readme.value|);
      && |r| == |caption| + n + 3
      && r[..|caption|] == caption
      && r[|caption|..|caption| + n] == readme.value[..n]
      && r[|caption| + n..] == "..."
  {
    if Truthy(readme) then caption + Substring(readme.value, limit) + "..." else ""
  }

  /** A README no longer than the limit is quoted whole, still followed by the ellipsis. */
  lemma ShortReadmeQuotedWhole(caption: string, text: string, limit: nat)
    requires caption != "" && text != "" && |text| <= limit
    ensures ReadmeExcerpt(caption, Some(text), limit) == caption + text + "..."
  {
    assert Substring(text, limit) == text;
  }

  /** The listing depends on the first ten repositories only. */
  lemma ListingIgnoresUnlisted(repos1: seq<Repo>, repos2: seq<Repo>, entry: (nat, Repo) -> string)
    requires Listed(repos1) == Listed(repos2)
    ensures Listing(repos1, entry) == Listing(repos2, entry)
  {
    var e1, e2 := Entries(repos1, entry), Entries(repos2, entry);
    assert |e1| == |e2|;
    forall i | 0 <= i < |e1| ensures e1[i] == e2[i] {
      assert repos1[i] == Listed(repos1)[i] == Listed(repos2)[i] == repos2[i];
    }
    assert e1 == e2;
  }

  /** Every listed repository's entry stands in the listing at its position:
      after the entries of the repositories before it and before those after it. */
  lemma ListingAt(repos: seq<Repo>, entry: (nat, Repo) -> string, i: nat)
    requires i < Min(ListLimit, |repos|)
    ensures Listing(repos, entry)
         == Join(Entries(repos, entry)[..i], "") + entry(i, repos[i]) + Join(Entries(repos, entry)[i + 1..], "")
  {
    JoinNoSeparatorSplit(Entries(repos, entry), i);
  }

  /** Every listed repository's entry occurs in any text built around the listing. */
  lemma ListedEntriesOccur(repos: seq<Repo>, entry: (nat, Repo) -> string, before: string, after: string)
    ensures forall i | 0 <= i < Min(ListLimit, |repos|) :: Occurs(entry(i, repos[i]), before + Listing(repos, entry) + after)
  {
    var entries := Entries(repos, entry);
    forall i | 0 <= i < Min(ListLimit, |repos|)
      ensures Occurs(entry(i, repos[i]), before + Listing(repos, entry) + after)
    {
      assert entries[i] == entry(i, repos[i]);
      JoinedPartOccurs(entries, i, before, after);
    }
  }
}
