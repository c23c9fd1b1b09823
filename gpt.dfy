/** The GPT generation handler (`POST` of the generate-portfolio-gpt route):
    request validation, the prompt template, the chat request, the
    empty-completion default and the response shape. The call to the hosted
    model is an oracle parameter that receives the whole chat request. */
module GptRoute {
  import opened Js
  import opened Portfolio
  import Decimal

  const ModelName: string := "gpt-4o"
  const AiModel: string := "GPT-4o"
  const MaxTokens: nat := 2000
  const Temperature: real := 0.7
  const SystemInstruction: string := "당신은 전문적인 포트폴리오 작성자입니다. GitHub 데이터를 분석하여 개인화된 포트폴리오를 생성합니다."
  const MissingDataError: string := "Portfolio data is required"
  const GenerationError: string := "Failed to generate portfolio with GPT"

  /** README excerpts in this prompt are cut to this many characters. */
  const ReadmeLimit: nat := 200

  const NoContact: string := "연락처 정보 없음"
  const DescriptionLabel: string := "   - 설명: "
  const LanguageLabel: string := "   - 언어: "
  const StarsLabel: string := "   - 스타: "
  const ForksLabel: string := "   - 포크: "
  const CountSuffix: string := "개\n"
  const FlagLabel: string := "   - README: "
  const Present: string := "있음"
  const NotPresent: string := "없음"
  const ReadmeCaption: string := "- README 내용: "

  datatype ChatMessage = ChatMessage(role: string, content: string)

  /** The arguments of `openai.chat.completions.create`. */
  datatype ChatRequest = ChatRequest(model: string, messages: seq<ChatMessage>, maxTokens: nat, temperature: real)

  datatype Message = Message(content: Option<string>)
  datatype Choice = Choice(message: Option<Message>)

  /** The awaited completion: the call may throw (`RequestFailed`); otherwise
      its `choices` property may be missing or hold any number of choices.
      `RequestFailed` also stands for `new OpenAI` throwing (a missing API
      key): that happens before the prompt is rendered, and it ends in the
      same 500. */
  datatype Completion = RequestFailed | Completion(choices: Option<seq<Choice>>)

  /** The JSON reply: the success shape (HTTP 200) or `{ error }` with a status. */
  datatype Response =
    | Generated(success: bool, portfolio: string, user: User, projectCount: nat, aiModel: string)
    | Error(status: nat, error: string)

  // Literal text of the prompt template, between its interpolations.

  const ProfileHeading: string :=
    "\n"
    + "당신은 전문적인 포트폴리오 작성자입니다. 다음 GitHub 사용자 데이터를 분석하여 개인화된 포트폴리오를 생성해주세요.\n"
    + "\n"
    + "사용자 정보:\n"
    + "- 이름: "

  const BioLabel: string :=
    "\n"
    + "- 바이오: "

  const FollowersLabel: string :=
    "\n"
    + "- 팔로워: "

  const FollowingLabel: string :=
    "명\n"
    + "- 팔로잉: "

  const PublicReposLabel: string :=
    "명\n"
    + "- Public Repository: "

  const ProjectsHeading: string :=
    "개\n"
    + "\n"
    + "주요 프로젝트들:\n"

  const PortfolioTitle: string :=
    "\n"
    + "\n"
    + "위 정보를 바탕으로 다음 형식으로 포트폴리오를 생성해주세요:\n"
    + "\n"
    + "# "

  const OutlineUpToProfileLink: string :=
    "의 포트폴리오\n"
    + "\n"
    + "## 👋 소개\n"
    + "[사용자의 바이오와 GitHub 활동을 바탕으로 한 개인 소개]\n"
    + "\n"
    + "## 🚀 주요 기술 스택\n"
    + "[사용된 프로그래밍 언어들을 분석하여 기술 스택 정리]\n"
    + "\n"
    + "## 💼 주요 프로젝트\n"
    + "[가장 인상적인 프로젝트들을 선별하여 상세 설명]\n"
    + "\n"
    + "## 📊 GitHub 통계\n"
    + "[팔로워, 팔로잉, Repository 수 등 통계 정보]\n"
    + "\n"
    + "## 🎯 관심사 및 전문 분야\n"
    + "[README 파일과 프로젝트 분석을 바탕으로 한 전문 분야]\n"
    + "\n"
    + "## 📈 성장 과정\n"
    + "[프로젝트 생성 날짜와 활동 패턴을 분석한 성장 과정]\n"
    + "\n"
    + "## 🔗 연락처\n"
    + "- GitHub: https://github.com/"

  const EmailLabel: string :=
    "\n"
    + "- 이메일: "

  const Closing: string :=
    "\n"
    + "\n"
    + "위 형식으로 한국어로 포트폴리오를 작성해주세요. 각 섹션은 구체적이고 개인화된 내용으로 작성해주세요.\n"

  /** `repo.hasReadme ? "있음" : "없음"`: the flag follows `hasReadme` alone,
      whether or not README text came with the repository. */
  function ReadmeFlag(hasReadme: bool): (r: string)
    ensures r == Present <==> hasReadme
    ensures r == NotPresent <==> !hasReadme
  {
    if hasReadme then Present else NotPresent
  }

  /** The first line of an entry: `n. name`, where the numeral `n` reads
      back as the one-based position `index + 1`. */
  function Heading(index: nat, name: string): (h: string)
    ensures var k := |Decimal.NatToString(index + 1)|;
      && |h| == k + |name| + 4
      && h[..1] == "\n"
      && Decimal.AllDigits(h[1..1 + k])
      && Decimal.NumeralValue(h[1..1 + k]) == index + 1
      && h[1 + k..3 + k] == ". "
      && h[3 + k..3 + k + |name|] == name
      && h[3 + k + |name|..] == "\n"
  {
    var numeral := Decimal.NatToString(index + 1);
    Decimal.NatToStringRoundTrip(index + 1);
    var h := "\n" + numeral + ". " + name + "\n";
    assert h[1..1 + |numeral|] == numeral;
    h
  }

  /** The entry for the repository at zero-based position `index`: it opens
      with its numbered heading and closes with the README excerpt line. */
  function Entry(index: nat, repo: Repo): (r: string)
    ensures StartsWith(r, Heading(index, repo.name))
    ensures EndsWith(r, "   " + ReadmeExcerpt(ReadmeCaption, repo.readme, ReadmeLimit) + "\n")
    ensures Occurs(DescriptionLabel + Or(repo.description, NoDescription) + "\n", r)
    ensures Occurs(LanguageLabel + Or(repo.language, NoLanguage) + "\n", r)
    ensures Occurs(StarsLabel + Decimal.NatToString(repo.stars) + CountSuffix, r)
    ensures Occurs(ForksLabel + Decimal.NatToString(repo.forks) + CountSuffix, r)
    ensures Occurs(FlagLabel + ReadmeFlag(repo.hasReadme) + "\n", r)
  {
    var heading := Heading(index, repo.name);
    var details := [
      DescriptionLabel + Or(repo.description, NoDescription) + "\n",
      LanguageLabel + Or(repo.language, NoLanguage) + "\n",
      StarsLabel + Decimal.NatToString(repo.stars) + CountSuffix,
      ForksLabel + Decimal.NatToString(repo.forks) + CountSuffix,
      FlagLabel + ReadmeFlag(repo.hasReadme) + "\n"];
    var last := "   " + ReadmeExcerpt(ReadmeCaption, repo.readme, ReadmeLimit) + "\n";
    Framed(heading, Join(details, ""), last);
    JoinedPartOccurs(details, 0, heading, last);
    JoinedPartOccurs(details, 1, heading, last);
    JoinedPartOccurs(details, 2, heading, last);
    JoinedPartOccurs(details, 3, heading, last);
    JoinedPartOccurs(details, 4, heading, last);
    heading + Join(details, "") + last
  }

  function EntryRenderer(): (nat, Repo) -> string
  {
    (index: nat, repo: Repo) => Entry(index, repo)
  }

  /** The prompt up to the project listing: the user section. */
  function Head(user: User): string
  {
    (ProfileHeading + Or(user.name, user.login))
    + Join(Figures(user), "")
    + ProjectsHeading
  }

  /** The profile figures after the name, one after another: the bio (with
      its fallback), followers, following and public repositories. */
  function Figures(user: User): seq<string>
  {
    [ BioLabel + Or(user.bio, NoBio),
      FollowersLabel + Decimal.NatToString(user.followers),
      FollowingLabel + Decimal.NatToString(user.following),
      PublicReposLabel + Decimal.NatToString(user.publicRepos) ]
  }

  /** The prompt after the project listing: the requested outline and the
      contact section, whose e-mail line is always present. */
  function Tail(user: User): string
  {
    (PortfolioTitle + Or(user.name, user.login) + OutlineUpToProfileLink)
    + user.login
    + (EmailLabel + Or(user.email, NoContact) + Closing)
  }

  function Prompt(user: User, repos: seq<Repo>): string
  {
    Head(user) + Listing(repos, EntryRenderer()) + Tail(user)
  }

  /** The chat request for a renderable body: the fixed system instruction,
      then the prompt as the user message. */
  function RequestFor(body: RequestBody): (q: ChatRequest)
    requires Renderable(body)
    ensures q.model == ModelName && q.maxTokens == MaxTokens && q.temperature == Temperature
    ensures |q.messages| == 2
    ensures q.messages[0] == ChatMessage("system", SystemInstruction)
    ensures q.messages[1] == ChatMessage("user", Prompt(body.portfolioData.user.value, body.portfolioData.repositories.value))
  {
    var prompt := Prompt(body.portfolioData.user.value, body.portfolioData.repositories.value);
    ChatRequest(ModelName, [ChatMessage("system", SystemInstruction), ChatMessage("user", prompt)], MaxTokens, Temperature)
  }

  /** `completion.choices[0]?.message?.content || ""`: the first choice's
      content when there is one, and the empty string otherwise. */
  function PortfolioText(choices: seq<Choice>): (r: string)
    ensures r != "" ==> |choices| > 0 && choices[0].message == Some(Message(Some(r)))
    ensures |choices| > 0 && choices[0].message.Some? && choices[0].message.value.content.Some? ==>
      r == choices[0].message.value.content.value
  {
    if |choices| > 0 && choices[0].message.Some? && choices[0].message.value.content.Some?
    then choices[0].message.value.content.value
    else ""
  }

  /** The handler. A falsy `portfolioData` is a 400; a body that cannot be
      read, a payload without `user` or `repositories`, a failed request and
      a completion without `choices` all end in the catch-all 500; otherwise
      the reply carries the completion text (possibly empty), the echoed
      user, the length of the whole repository list and the model label. */
  function Post(body: RequestBody, complete: ChatRequest -> Completion): (r: Response)
    ensures r.Error? ==> (r.status == 400 && r.error == MissingDataError) || (r.status == 500 && r.error == GenerationError)
    ensures r.Error? && r.status == 400 <==> body == Body(Absent)
    ensures r.Generated? <==>
      Renderable(body) && complete(RequestFor(body)).Completion? && complete(RequestFor(body)).choices.Some?
    ensures r.Generated? ==>
      && r.success
      && r.portfolio == PortfolioText(complete(RequestFor(body)).choices.value)
      && r.user == body.portfolioData.user.value
      && r.projectCount == |body.portfolioData.repositories.value|
      && r.aiModel == AiModel
  {
    match body
    case Unreadable => Error(500, GenerationError)
    case NullBody => Error(500, GenerationError)
    case Body(Absent) => Error(400, MissingDataError)
    case Body(Given(user, repos)) =>
      if user.None? || repos.None? then Error(500, GenerationError)
      else
        match complete(RequestFor(body))
        case RequestFailed => Error(500, GenerationError)
        case Completion(None) => Error(500, GenerationError)
        case Completion(Some(choices)) => Generated(true, PortfolioText(choices), user.value, |repos.value|, AiModel)
  }

  /** A falsy payload is refused before any client is built: the reply is the
      same whatever the model would answer. */
  lemma MissingDataNeverGenerates(complete1: ChatRequest -> Completion, complete2: ChatRequest -> Completion)
    ensures Post(Body(Absent), complete1) == Post(Body(Absent), complete2) == Error(400, MissingDataError)
  {
  }

  /** A completion with no choice, or a choice without content, is a success
      with an empty portfolio rather than an error. */
  lemma EmptyCompletionIsEmptyPortfolio(user: User, repos: seq<Repo>, complete: ChatRequest -> Completion)
    requires var body := Body(Given(Some(user), Some(repos)));
      complete(RequestFor(body)).Completion? && complete(RequestFor(body)).choices.Some?
      && var choices := complete(RequestFor(body)).choices.value;
      (choices == [] || choices[0].message.None? || choices[0].message.value.content.None?)
    ensures Post(Body(Given(Some(user), Some(repos))), complete) == Generated(true, "", user, |repos|, AiModel)
  {
  }

  /** The user section opens with the display name (`name || login`),
      which the bio line follows directly, and closes with the public
      repository count and the heading of the project list. */
  lemma HeadLayout(user: User)
    ensures StartsWith(Head(user), ProfileHeading + Or(user.name, user.login) + (BioLabel + Or(user.bio, NoBio)))
    ensures EndsWith(Head(user), PublicReposLabel + Decimal.NatToString(user.publicRepos) + ProjectsHeading)
  {
    var figures, opening := Figures(user), ProfileHeading + Or(user.name, user.login);
    JoinedStart(figures, opening, ProjectsHeading);
    JoinedEnd(figures, opening, ProjectsHeading);
  }

  /** The user section shows the bio, or "정보 없음" when it is falsy, and
      the follower, following and public-repository counts in decimal, each
      value followed directly by the next label. */
  lemma HeadShowsProfile(user: User)
    ensures Occurs(BioLabel + Or(user.bio, NoBio) + (FollowersLabel + Decimal.NatToString(user.followers)), Head(user))
    ensures Occurs(FollowersLabel + Decimal.NatToString(user.followers) + (FollowingLabel + Decimal.NatToString(user.following)), Head(user))
    ensures Occurs(FollowingLabel + Decimal.NatToString(user.following) + (PublicReposLabel + Decimal.NatToString(user.publicRepos)), Head(user))
  {
    var figures, opening := Figures(user), ProfileHeading + Or(user.name, user.login);
    JoinedPairOccurs(figures, 0, opening, ProjectsHeading);
    JoinedPairOccurs(figures, 1, opening, ProjectsHeading);
    JoinedPairOccurs(figures, 2, opening, ProjectsHeading);
  }

  /** The outline is titled with the display name, which the outline text
      follows directly, and ends with the e-mail line, which falls back to
      "연락처 정보 없음", and the closing request. */
  lemma TailLayout(user: User)
    ensures StartsWith(Tail(user), PortfolioTitle + Or(user.name, user.login) + OutlineUpToProfileLink)
    ensures EndsWith(Tail(user), EmailLabel + Or(user.email, NoContact) + Closing)
  {
    Framed(PortfolioTitle + Or(user.name, user.login) + OutlineUpToProfileLink, user.login, EmailLabel + Or(user.email, NoContact) + Closing);
  }

  /** The prompt opens with the user section and closes with the outline. */
  lemma PromptLayout(user: User, repos: seq<Repo>)
    ensures StartsWith(Prompt(user, repos), Head(user))
    ensures EndsWith(Prompt(user, repos), Tail(user))
  {
    Framed(Head(user), Listing(repos, EntryRenderer()), Tail(user));
  }

  /** Every one of the first ten repositories has its entry in the prompt. */
  lemma PromptListsRepository(user: User, repos: seq<Repo>, i: nat)
    requires i < Min(ListLimit, |repos|)
    ensures Occurs(Entry(i, repos[i]), Prompt(user, repos))
  {
    ListedEntriesOccur(repos, EntryRenderer(), Head(user), Tail(user));
  }

  /** Repositories after the tenth never reach the prompt. */
  lemma PromptIgnoresUnlisted(user: User, repos1: seq<Repo>, repos2: seq<Repo>)
    requires Listed(repos1) == Listed(repos2)
    ensures Prompt(user, repos1) == Prompt(user, repos2)
  {
    ListingIgnoresUnlisted(repos1, repos2, EntryRenderer());
  }
}
