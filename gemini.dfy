/** The Gemini generation handler (`POST` of the generate-portfolio route):
    request validation, the prompt template and the response shape. The call
    to the hosted model is an oracle parameter that receives the model name
    and the rendered prompt. */
module GeminiRoute {
  import opened Js
  import opened Portfolio
  import Decimal

  const ModelName: string := "gemini-2.0-flash"
  const MissingDataError: string := "Portfolio data is required"
  const GenerationError: string := "Failed to generate portfolio"

  /** README excerpts in this prompt are cut to this many characters. */
  const ReadmeLimit: nat := 300

  const NoTopics: string := "없음"
  const ReadmeCaption: string := "- README 요약: "
  const DescriptionLabel: string := "   - 설명: "
  const LanguageLabel: string := "   - 주요 언어: "
  const InterestLabel: string := "   - 관심도: ⭐ "
  const ForksLabel: string := " | 🍴 "
  const PeriodLabel: string := "   - 활동 기간: "
  const TopicsLabel: string := "   - 주제: "
  const EmailCaption: string := "- **Email**: "

  /** What the handler hands to the hosted model. */
  datatype GenerateRequest = GenerateRequest(model: string, prompt: string)

  /** The awaited result of `generateContent(prompt)` followed by
      `response.text()`: either call may throw (`Failed`). Creating the
      client and the model object throws nothing; a missing API key surfaces
      as a failing `generateContent` call, so `Failed` covers it. */
  datatype Generation = Failed | Text(text: string)

  /** The JSON reply: the success shape (HTTP 200) or `{ error }` with a status. */
  datatype Response =
    | Generated(success: bool, portfolio: string, user: User, projectCount: nat)
    | Error(status: nat, error: string)

  // Literal text of the prompt template, between its interpolations.

  const ProfileHeading: string :=
    "\n"
    + "당신은 세계 최고 수준의 기술 포트폴리오 전문가입니다. GitHub 데이터를 심층 분석하여 전문적이고 매력적인 포트폴리오를 작성해주세요.\n"
    + "\n"
    + "## 분석 대상 정보\n"
    + "\n"
    + "### 개발자 프로필\n"
    + "- **이름**: "

  const BioLabel: string :=
    "\n"
    + "- **소개**: "

  const FollowersLabel: string :=
    "\n"
    + "- **커뮤니티 영향력**: 팔로워 "

  const FollowingLabel: string :=
    "명 | 팔로잉 "

  const PublicReposLabel: string :=
    "명\n"
    + "- **공개 저장소**: "

  const ProjectsHeading: string :=
    "개\n"
    + "\n"
    + "### 주요 프로젝트 목록\n"

  const PortfolioTitle: string :=
    "\n"
    + "\n"
    + "## 작성 가이드라인\n"
    + "\n"
    + "다음 구조로 **마크다운 형식**의 전문적인 포트폴리오를 작성해주세요:\n"
    + "\n"
    + "# 💼 "

  const OutlineUpToRepoCount: string :=
    "\n"
    + "\n"
    + "> 한 줄로 개발자를 표현하는 임팩트 있는 소개 문구\n"
    + "\n"
    + "---\n"
    + "\n"
    + "## 👨\U{200D}💻 About Me\n"
    + "\n"
    + "개발자의 전문성, 경험, 개발 철학을 3-4문장으로 서술해주세요.\n"
    + "- GitHub 활동과 프로젝트 특성을 분석하여 개발자의 강점 부각\n"
    + "- 구체적인 수치와 성과를 포함\n"
    + "- 전문적이면서도 친근한 톤 유지\n"
    + "\n"
    + "## 🛠 Tech Stack\n"
    + "\n"
    + "프로젝트에서 사용된 언어와 기술을 분석하여 다음 카테고리로 분류:\n"
    + "\n"
    + "### Languages\n"
    + "가장 많이 사용된 언어 상위 5개 (배지 형식으로 표현)\n"
    + "\n"
    + "### Frameworks & Libraries\n"
    + "프로젝트에서 발견된 주요 프레임워크와 라이브러리\n"
    + "\n"
    + "### Tools & Platforms\n"
    + "개발 도구 및 플랫폼 (GitHub Topics 활용)\n"
    + "\n"
    + "## 🚀 Featured Projects\n"
    + "\n"
    + "**가장 주목할 만한 프로젝트 3-5개**를 선정하여 다음 형식으로 작성:\n"
    + "\n"
    + "### 📌 [프로젝트명]\n"
    + "- **설명**: 프로젝트의 목적과 핵심 기능 (2-3문장)\n"
    + "- **기술 스택**: 사용된 주요 기술\n"
    + "- **성과**: 스타 수, 포크 수, 특별한 성과\n"
    + "- **하이라이트**: README에서 추출한 핵심 내용 또는 특징적인 구현 사항\n"
    + "\n"
    + "## 📊 GitHub Analytics\n"
    + "\n"
    + "- 📦 **총 저장소**: "

  const CommunityLabel: string :=
    "개\n"
    + "- 👥 **커뮤니티**: 팔로워 "

  const ContactHeading: string :=
    "명\n"
    + "- ⭐ **총 스타 수**: (모든 프로젝트의 스타 합계)\n"
    + "- 🔥 **활동 기간**: 가장 오래된 프로젝트 ~ 최근 업데이트\n"
    + "\n"
    + "## 🎯 Areas of Expertise\n"
    + "\n"
    + "README와 프로젝트 분석을 통해 발견된 전문 분야를 3-5개 항목으로 정리:\n"
    + "- 각 분야별로 관련 프로젝트와 기술을 구체적으로 언급\n"
    + "- 왜 이 분야의 전문가로 볼 수 있는지 근거 제시\n"
    + "\n"
    + "## 💡 Development Journey\n"
    + "\n"
    + "프로젝트 생성 날짜와 기술 스택 변화를 분석하여 개발자의 성장 스토리를 작성:\n"
    + "- 시간 순서대로 기술 스택의 진화 과정 서술\n"
    + "- 주요 마일스톤 프로젝트 언급\n"
    + "- 현재 관심사와 학습 방향 추론\n"
    + "\n"
    + "## 📫 Contact & Links\n"
    + "\n"
    + "- **GitHub**: [@"

  const ProfileLinkMiddle: string :=
    "](https://github.com/"

  const ProfileLinkEnd: string :=
    ")\n"

  const WritingRules: string :=
    "\n"
    + "\n"
    + "---\n"
    + "\n"
    + "**⚠️ 중요 작성 규칙:**\n"
    + "1. 모든 내용은 **마크다운 형식**으로 작성 (제목, 링크, 볼드, 리스트 등 적극 활용)\n"
    + "2. 실제 데이터를 기반으로 구체적이고 정확하게 작성\n"
    + "3. 일반적인 설명보다는 **이 개발자만의 특징**을 강조\n"
    + "4. 각 섹션은 간결하지만 임팩트 있게 작성\n"
    + "5. 기술 용어는 정확하게 사용\n"
    + "6. README 내용이 있는 경우 핵심 정보를 적극 활용\n"
    + "7. 프로페셔널하면서도 읽기 쉬운 톤 유지\n"

  /** `repo.topics?.join(', ') || "없음"`: the fallback replaces a missing list
      and every list whose join is empty. */
  function TopicsText(topics: Option<seq<string>>): (r: string)
    ensures topics.None? || topics.value == [] ==> r == NoTopics
    ensures topics.Some? && |topics.value| == 1 ==> r == Or(Some(topics.value[0]), NoTopics)
    ensures topics.Some? && |topics.value| >= 2 ==> r == Join(topics.value, ", ")
  {
    if topics.None? then NoTopics
    else
      JoinEmptyIff(topics.value, ", ");
      Or(Some(Join(topics.value, ", ")), NoTopics)
  }

  /** The contact line: the e-mail address when it is truthy, otherwise nothing. */
  function EmailLine(email: Option<string>): (r: string)
    ensures r == "" <==> !Truthy(email)
    ensures Truthy(email) ==> r == EmailCaption + email.value
  {
    if Truthy(email) then EmailCaption + email.value else ""
  }

  /** The first line of an entry: `**n. name**`, where the numeral `n`
      reads back as the one-based position `index + 1`. */
  function Heading(index: nat, name: string): (h: string)
    ensures var k := |Decimal.NatToString(index + 1)|;
      && |h| == k + |name| + 8
      && h[..3] == "\n**"
      && Decimal.AllDigits(h[3..3 + k])
      && Decimal.NumeralValue(h[3..3 + k]) == index + 1
      && h[3 + k..5 + k] == ". "
      && h[5 + k..5 + k + |name|] == name
      && h[5 + k + |name|..] == "**\n"
  {
    var numeral := Decimal.NatToString(index + 1);
    Decimal.NatToStringRoundTrip(index + 1);
    var h := "\n**" + numeral + ". " + name + "**\n";
    assert h[3..3 + |numeral|] == numeral;
    h
  }

  /** The entry for the repository at zero-based position `index`.
      `formatDate` stands for `new Date(s).toLocaleDateString('ko-KR')`. */
  function Entry(index: nat, repo: Repo, formatDate: string -> string): (r: string)
    ensures StartsWith(r, Heading(index, repo.name))
    ensures EndsWith(r, "   " + ReadmeExcerpt(ReadmeCaption, repo.readme, ReadmeLimit) + "\n")
    ensures Occurs(DescriptionLabel + Or(repo.description, NoDescription) + "\n", r)
    ensures Occurs(LanguageLabel + Or(repo.language, NoLanguage) + "\n", r)
    ensures Occurs(InterestLabel + Decimal.NatToString(repo.stars) + ForksLabel + Decimal.NatToString(repo.forks) + "\n", r)
    ensures Occurs(PeriodLabel + formatDate(repo.createdAt) + " ~ " + formatDate(repo.updatedAt) + "\n", r)
    ensures Occurs(TopicsLabel + TopicsText(repo.topics) + "\n", r)
  {
    var details := [
      DescriptionLabel + Or(repo.description, NoDescription) + "\n",
      LanguageLabel + Or(repo.language, NoLanguage) + "\n",
      InterestLabel + Decimal.NatToString(repo.stars) + ForksLabel + Decimal.NatToString(repo.forks) + "\n",
      PeriodLabel + formatDate(repo.createdAt) + " ~ " + formatDate(repo.updatedAt) + "\n",
      TopicsLabel + TopicsText(repo.topics) + "\n"];
    var last := "   " + ReadmeExcerpt(ReadmeCaption, repo.readme, ReadmeLimit) + "\n";
    var heading := Heading(index, repo.name);
    Framed(heading, Join(details, ""), last);
    JoinedPartOccurs(details, 0, heading, last);
    JoinedPartOccurs(details, 1, heading, last);
    JoinedPartOccurs(details, 2, heading, last);
    JoinedPartOccurs(details, 3, heading, last);
    JoinedPartOccurs(details, 4, heading, last);
    heading + Join(details, "") + last
  }

  function EntryRenderer(formatDate: string -> string): (nat, Repo) -> string
  {
    (index: nat, repo: Repo) => Entry(index, repo, formatDate)
  }

  /** The prompt up to the project listing: the profile section. */
  function Head(user: User): string
  {
    (ProfileHeading + Or(user.name, user.login))
    + Join(Figures(user), "")
    + ProjectsHeading
  }

  /** The profile figures after the name, one after another: the bio (with
      its fallback), followers, following and public repositories. */
  function Figures(user: User): seq<string>
  {
    [ BioLabel + Or(user.bio, NoBio),
      FollowersLabel + Decimal.NatToString(user.followers),
      FollowingLabel + Decimal.NatToString(user.following),
      PublicReposLabel + Decimal.NatToString(user.publicRepos) ]
  }

  /** The prompt after the project listing: the writing guide, the figures
      repeated, the contact links and the writing rules. */
  function Tail(user: User): string
  {
    (PortfolioTitle + Or(user.name, user.login) + OutlineUpToRepoCount)
    + (Decimal.NatToString(user.publicRepos)
       + CommunityLabel + Decimal.NatToString(user.followers)
       + FollowingLabel + Decimal.NatToString(user.following)
       + ContactHeading + user.login + ProfileLinkMiddle + user.login)
    + (ProfileLinkEnd + EmailLine(user.email) + WritingRules)
  }

  /** The whole prompt: the profile section, the listing, the guide. */
  function Prompt(user: User, repos: seq<Repo>, formatDate: string -> string): string
  {
    Head(user) + Listing(repos, EntryRenderer(formatDate)) + Tail(user)
  }

  /** The handler. A falsy `portfolioData` is a 400; a body that cannot be
      read, a payload without `user` or `repositories`, and a failed
      generation all end in the catch-all 500; otherwise the reply carries the
      generated text, the echoed user and the length of the whole repository
      list (not the ten that were listed). */
  function Post(body: RequestBody, generate: GenerateRequest -> Generation, formatDate: string -> string): (r: Response)
    ensures r.Error? ==> (r.status == 400 && r.error == MissingDataError) || (r.status == 500 && r.error == GenerationError)
    ensures r.Error? && r.status == 400 <==> body == Body(Absent)
    ensures r.Generated? <==>
      Renderable(body)
      && var request := GenerateRequest(ModelName, Prompt(body.portfolioData.user.value, body.portfolioData.repositories.value, formatDate));
      generate(request).Text?
    ensures r.Generated? ==>
      var request := GenerateRequest(ModelName, Prompt(body.portfolioData.user.value, body.portfolioData.repositories.value, formatDate));
      && r.success
      && r.portfolio == generate(request).text
      && r.user == body.portfolioData.user.value
      && r.projectCount == |body.portfolioData.repositories.value|
  {
    match body
    case Unreadable => Error(500, GenerationError)
    case NullBody => Error(500, GenerationError)
    case Body(Absent) => Error(400, MissingDataError)
    case Body(Given(user, repos)) =>
      if user.None? || repos.None? then Error(500, GenerationError)
      else
        match generate(GenerateRequest(ModelName, Prompt(user.value, repos.value, formatDate)))
        case Failed => Error(500, GenerationError)
        case Text(text) => Generated(true, text, user.value, |repos.value|)
  }

  /** A falsy payload is refused before the model is involved: the reply is the
      same whatever the model would answer. */
  lemma MissingDataNeverGenerates(generate1: GenerateRequest -> Generation, generate2: GenerateRequest -> Generation, formatDate: string -> string)
    ensures Post(Body(Absent), generate1, formatDate) == Post(Body(Absent), generate2, formatDate) == Error(400, MissingDataError)
  {
  }

  /** A truthy payload without `user` or `repositories` is not a 400: reading
      through the missing property throws, and the catch-all answers 500. */
  lemma IncompletePayloadIsServerError(user: Option<User>, repos: Option<seq<Repo>>, generate: GenerateRequest -> Generation, formatDate: string -> string)
    requires user.None? || repos.None?
    ensures Post(Body(Given(user, repos)), generate, formatDate) == Error(500, GenerationError)
  {
  }

  /** The profile section opens with the display name (`name || login`),
      which the bio line follows directly, and closes with the public
      repository count and the heading of the project list. */
  lemma HeadLayout(user: User)
    ensures StartsWith(Head(user), ProfileHeading + Or(user.name, user.login) + (BioLabel + Or(user.bio, NoBio)))
    ensures EndsWith(Head(user), PublicReposLabel + Decimal.NatToString(user.publicRepos) + ProjectsHeading)
  {
    var figures, opening := Figures(user), ProfileHeading + Or(user.name, user.login);
    JoinedStart(figures, opening, ProjectsHeading);
    JoinedEnd(figures, opening, ProjectsHeading);
  }

  /** The profile section shows the bio, or "정보 없음" when it is falsy, and
      the follower, following and public-repository counts in decimal, each
      value followed directly by the next label. */
  lemma HeadShowsProfile(user: User)
    ensures Occurs(BioLabel + Or(user.bio, NoBio) + (FollowersLabel + Decimal.NatToString(user.followers)), Head(user))
    ensures Occurs(FollowersLabel + Decimal.NatToString(user.followers) + (FollowingLabel + Decimal.NatToString(user.following)), Head(user))
    ensures Occurs(FollowingLabel + Decimal.NatToString(user.following) + (PublicReposLabel + Decimal.NatToString(user.publicRepos)), Head(user))
  {
    var figures, opening := Figures(user), ProfileHeading + Or(user.name, user.login);
    JoinedPairOccurs(figures, 0, opening, ProjectsHeading);
    JoinedPairOccurs(figures, 1, opening, ProjectsHeading);
    JoinedPairOccurs(figures, 2, opening, ProjectsHeading);
  }

  /** The guide is titled with the display name, which the outline follows
      directly, and ends with the profile link, the e-mail line (nothing at
      all without an address) and the writing rules. */
  lemma TailLayout(user: User)
    ensures StartsWith(Tail(user), PortfolioTitle + Or(user.name, user.login) + OutlineUpToRepoCount)
    ensures EndsWith(Tail(user), ProfileLinkEnd + EmailLine(user.email) + WritingRules)
  {
    var figures :=
      Decimal.NatToString(user.publicRepos)
      + CommunityLabel + Decimal.NatToString(user.followers)
      + FollowingLabel + Decimal.NatToString(user.following)
      + ContactHeading + user.login + ProfileLinkMiddle + user.login;
    Framed(PortfolioTitle + Or(user.name, user.login) + OutlineUpToRepoCount, figures, ProfileLinkEnd + EmailLine(user.email) + WritingRules);
  }

  /** The prompt opens with the profile section and closes with the guide. */
  lemma PromptLayout(user: User, repos: seq<Repo>, formatDate: string -> string)
    ensures StartsWith(Prompt(user, repos, formatDate), Head(user))
    ensures EndsWith(Prompt(user, repos, formatDate), Tail(user))
  {
    Framed(Head(user), Listing(repos, EntryRenderer(formatDate)), Tail(user));
  }

  /** Every one of the first ten repositories has its entry in the prompt. */
  lemma PromptListsRepository(user: User, repos: seq<Repo>, formatDate: string -> string, i: nat)
    requires i < Min(ListLimit, |repos|)
    ensures Occurs(Entry(i, repos[i], formatDate), Prompt(user, repos, formatDate))
  {
    ListedEntriesOccur(repos, EntryRenderer(formatDate), Head(user), Tail(user));
  }

  /** Repositories after the tenth never reach the prompt. */
  lemma PromptIgnoresUnlisted(user: User, repos1: seq<Repo>, repos2: seq<Repo>, formatDate: string -> string)
    requires Listed(repos1) == Listed(repos2)
    ensures Prompt(user, repos1, formatDate) == Prompt(user, repos2, formatDate)
  {
    ListingIgnoresUnlisted(repos1, repos2, EntryRenderer(formatDate));
  }
}
