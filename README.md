# GitHub portfolio generator — a Dafny model of its request handlers, schemas and errors

The application signs a user in with GitHub, gathers their repositories and
README files, and asks a hosted language model (Gemini or GPT-4o) to write a
markdown portfolio. This project models the parts of it that are its own
logic. All of them are pure, so the model uses datatypes, functions and lemmas:

- **The two generation handlers** (`GeminiRoute`, `GptRoute`, with the shared
  parts in `Portfolio`). Each one validates the request body (a falsy
  `portfolioData` gives 400). It renders the payload into its own prompt
  template, with the same literal text as the source. Only the first ten
  repositories are listed, numbered from 1. Missing fields get fallbacks with
  JavaScript `||` semantics. README text is cut to 300 characters for Gemini
  and 200 for GPT, always followed by `...`. The hosted model is an oracle
  parameter. It receives the Gemini model name and prompt, or the whole GPT
  chat request. Each handler shapes the reply: on success, `projectCount` is
  the full list length and GPT falls back to `""` for an empty completion.
  Every exception becomes a 500.
- **The README endpoint** (`ReadmeRoute`). It is a chain of early returns:
  - no token gives 401;
  - a body that cannot be read gives 500;
  - a falsy `owner` or `repo` gives 400;
  - an upstream 404 is a successful "no README" reply;
  - any other upstream failure gives 500;
  - a 2xx reply gives the decoded content.

  The token is a parameter. The upstream `fetch` and the base64 decoder are
  oracle parameters.
- **The Zod schemas** (`Schemas`). The combinators the types file uses get a
  small semantics: valid, dirty and aborted parse statuses; string checks that
  all run; `nullable`, `optional`, `default`, `literal` and `or`; objects parsed
  field by field in declaration order. These rules, and the issues a failed
  `or` reports, are those of Zod 3 (Zod 4 reports union failures
  differently). `extend` assigns the extension's
  properties over the base shape, as Zod's `{...shape, ...augmentation}`
  does: a new key is appended, and a key the base already has takes the new
  schema in place. The lemmas state what each schema accepts and which
  defaults it fills in. They also show that the extended repository schema
  accepts only what the base schema accepts.
- **The error hierarchy** (`AppErrors`). The three constructors, their status
  codes and names, and `instanceof` along the class chain.

`Js` holds the JavaScript semantics the handlers rely on: missing values,
truthiness, `||`, `substring` and `join`. `Decimal` renders the counts
(stars, forks, followers) as decimal numerals and proves that this rendering
reads back to the same number.

Two consequences of the order in which the code evaluates things are part of
the contracts:

- Only a falsy `portfolioData` is answered with 400. A truthy payload without
  `user` or `repositories` throws while the prompt is rendered, so the reply
  is a 500.
- In the GPT handler, `completion.choices[0]` is read without a guard, so a
  completion without `choices` throws and the reply is a 500. A missing
  choice, message or content gives the empty portfolio `""`.

The prompts are long template literals. The functions that render them
(`Head`, `Tail`, `Prompt`) carry no contract of their own; lemmas state how
each prompt is laid out, what it starts and ends with, and that it contains
the entry of every listed repository. The Gemini handler has no separate
request function: the contract of `GeminiRoute.Post` names the model and the
prompt it sends.

## Model

| member | source | states |
|---|---|---|
| `Js.Or` | src/app/api/ai/generate-portfolio/route.ts:27-28 | `v \|\| fallback`: the value when it is truthy (present and non-empty), the fallback for `null`, `undefined` and `""` |
| `Js.Substring` | src/app/api/ai/generate-portfolio/route.ts:43 | `s.substring(0, n)` is the prefix of `s` of length `min(n, \|s\|)` |
| `Js.JoinEmptyIff` | src/app/api/ai/generate-portfolio/route.ts:42 | with a non-empty separator, a join is empty exactly when the list is empty or holds one empty string |
| `Js.JoinNoSeparatorSplit` | src/app/api/ai/generate-portfolio/route.ts:33-46 | `parts.join("")` holds `parts[i]` between the join of the parts before it and the join of those after it |
| `Js.JoinedPartOccurs` | src/app/api/ai/generate-portfolio/route.ts:33-46 | every part of `parts.join("")` occurs in any text built around the join |
| `Decimal.NatToString` | src/app/api/ai/generate-portfolio/route.ts:29-30 | a count renders as a non-empty numeral of decimal digits with no leading zero |
| `Decimal.NatToStringRoundTrip` | src/app/api/ai/generate-portfolio/route.ts:29-30 | reading the rendered numeral back gives the count |
| `Decimal.NatToStringInjective` | src/app/api/ai/generate-portfolio/route.ts:29-30 | distinct counts render differently |
| `Portfolio.Listed` | src/app/api/ai/generate-portfolio/route.ts:33-34 | `repositories.slice(0, 10)` has `min(10, n)` elements and is a prefix of the list, in order |
| `Portfolio.Entries` | src/app/api/ai/generate-portfolio/route.ts:33-37 | the rendered list has `min(10, n)` entries, entry `i` rendered from repository `i` with index `i` |
| `Portfolio.ReadmeExcerpt` | src/app/api/ai/generate-portfolio/route.ts:43 | the README line is empty exactly when the README is falsy; otherwise it is the caption, then exactly the first `min(limit, length)` README characters, then `...` |
| `Portfolio.ShortReadmeQuotedWhole` | src/app/api/ai/generate-portfolio-gpt/route.ts:41 | a README no longer than the limit is quoted whole, and `...` is still appended |
| `Portfolio.ListingIgnoresUnlisted` | src/app/api/ai/generate-portfolio/route.ts:33-46 | the listing depends on the first ten repositories only |
| `Portfolio.Listing` | src/app/api/ai/generate-portfolio/route.ts:33-46 | the listed entries concatenated with no separator; its contract is stated by `Portfolio.ListingAt` and `Portfolio.ListingIgnoresUnlisted` |
| `Portfolio.ListingAt` | src/app/api/ai/generate-portfolio/route.ts:33-46 | entry `i` of the listing sits after the entries of repositories `0..i-1` and before those of the later listed ones |
| `Portfolio.ListedEntriesOccur` | src/app/api/ai/generate-portfolio-gpt/route.ts:31-44 | the entry of every listed repository occurs in any text built around the listing |
| `GeminiRoute.TopicsText` | src/app/api/ai/generate-portfolio/route.ts:42 | a missing or empty topic list gives "없음"; a single topic gives itself, or "없음" if it is empty; two or more give their `, `-join |
| `GeminiRoute.EmailLine` | src/app/api/ai/generate-portfolio/route.ts:111 | the e-mail line is empty exactly when the e-mail is falsy, and otherwise shows the address |
| `GeminiRoute.Heading` | src/app/api/ai/generate-portfolio/route.ts:37 | an entry heading is a newline, `**`, a decimal numeral, `. `, the repository name and `**` with a newline, and the numeral reads back as the index plus one |
| `GeminiRoute.Entry` | src/app/api/ai/generate-portfolio/route.ts:36-44 | an entry starts with its heading and ends with its README line; it contains the description line with "설명 없음" for a falsy description, the language line with "언어 정보 없음" for a falsy language, the stars and forks in decimal, both formatted dates, and the topics line with its "없음" fallback |
| `GeminiRoute.HeadLayout` | src/app/api/ai/generate-portfolio/route.ts:21-32 | the prompt's profile part starts with the profile heading, then the display name (`name` or else `login`), then directly the bio line; it ends with the public-repository count in decimal and the project-list heading |
| `GeminiRoute.HeadShowsProfile` | src/app/api/ai/generate-portfolio/route.ts:28-30 | the profile section shows the bio, or "정보 없음" when it is falsy, and the follower and following counts in decimal, each value followed directly by the next label and value |
| `GeminiRoute.TailLayout` | src/app/api/ai/generate-portfolio/route.ts:46-123 | the guideline part starts with the portfolio title, the display name and directly the outline; it ends with the profile link's `)`, the e-mail line (nothing at all for a falsy address) and the writing rules |
| `GeminiRoute.PromptLayout` | src/app/api/ai/generate-portfolio/route.ts:21-123 | the prompt starts with the profile part and ends with the guideline part |
| `GeminiRoute.Post` | src/app/api/ai/generate-portfolio/route.ts:4-146 | 400 "Portfolio data is required" exactly for a falsy `portfolioData`; every other error is 500 "Failed to generate portfolio"; success exactly when the payload renders and the model answers the request naming `gemini-2.0-flash` and the rendered prompt; on success the reply has `success`, the text answered to that request, the echoed user and `projectCount` equal to the full list length |
| `GeminiRoute.MissingDataNeverGenerates` | src/app/api/ai/generate-portfolio/route.ts:10-15 | a falsy payload gets the 400 whatever the model would answer |
| `GeminiRoute.IncompletePayloadIsServerError` | src/app/api/ai/generate-portfolio/route.ts:27-33 | a truthy payload without `user` or `repositories` is a 500, not a 400 |
| `GeminiRoute.PromptListsRepository` | src/app/api/ai/generate-portfolio/route.ts:21-46 | each of the first `min(10, n)` repositories has its entry in the prompt |
| `GeminiRoute.PromptIgnoresUnlisted` | src/app/api/ai/generate-portfolio/route.ts:33-34 | repositories after the tenth do not change the prompt |
| `GptRoute.ReadmeFlag` | src/app/api/ai/generate-portfolio-gpt/route.ts:40 | the flag reads "있음" if and only if `hasReadme`, and "없음" otherwise, whatever the README text |
| `GptRoute.Heading` | src/app/api/ai/generate-portfolio-gpt/route.ts:35 | an entry heading is a newline, a decimal numeral, `. `, the repository name and a newline, and the numeral reads back as the index plus one |
| `GptRoute.Entry` | src/app/api/ai/generate-portfolio-gpt/route.ts:34-42 | an entry starts with its heading and ends with its README line; it contains the description line with "설명 없음" for a falsy description, the language line with "언어 정보 없음" for a falsy language, the stars and forks in decimal with "개", and the `README:` line with the "있음"/"없음" flag |
| `GptRoute.HeadLayout` | src/app/api/ai/generate-portfolio-gpt/route.ts:20-30 | the prompt's user part starts with its heading, then the display name, then directly the bio line; it ends with the public-repository count in decimal and the project-list heading |
| `GptRoute.HeadShowsProfile` | src/app/api/ai/generate-portfolio-gpt/route.ts:25-28 | the user section shows the bio, or "정보 없음" when it is falsy, and the follower and following counts in decimal, each value followed directly by the next label and value |
| `GptRoute.TailLayout` | src/app/api/ai/generate-portfolio-gpt/route.ts:44-73 | the instruction part starts with the portfolio title, the display name and directly the outline, and ends with the e-mail label, the e-mail or "연락처 정보 없음", and the closing request |
| `GptRoute.PromptLayout` | src/app/api/ai/generate-portfolio-gpt/route.ts:20-73 | the prompt starts with the profile part and ends with the instruction part |
| `GptRoute.RequestFor` | src/app/api/ai/generate-portfolio-gpt/route.ts:75-90 | the chat request is `gpt-4o`, 2000 tokens, temperature 0.7, the fixed system message, then the prompt as the user message |
| `GptRoute.PortfolioText` | src/app/api/ai/generate-portfolio-gpt/route.ts:92 | a non-empty text is the first choice's content; when that content exists, the text is that content; otherwise the text is `""` |
| `GptRoute.Post` | src/app/api/ai/generate-portfolio-gpt/route.ts:4-108 | 400 exactly for a falsy `portfolioData`; every other error is 500 "Failed to generate portfolio with GPT"; success exactly when the payload renders and a completion with `choices` comes back; on success the reply has `success`, the completion text, the echoed user, `projectCount` equal to the full list length and `aiModel` "GPT-4o" |
| `GptRoute.MissingDataNeverGenerates` | src/app/api/ai/generate-portfolio-gpt/route.ts:8-13 | a falsy payload gets the 400 whatever the model would answer |
| `GptRoute.EmptyCompletionIsEmptyPortfolio` | src/app/api/ai/generate-portfolio-gpt/route.ts:92-100 | no choice, no message or no content gives a success with `portfolio: ""` |
| `GptRoute.PromptListsRepository` | src/app/api/ai/generate-portfolio-gpt/route.ts:20-44 | each of the first `min(10, n)` repositories has its entry in the prompt |
| `GptRoute.PromptIgnoresUnlisted` | src/app/api/ai/generate-portfolio-gpt/route.ts:31-32 | repositories after the tenth do not change the prompt |
| `ReadmeRoute.Post` | src/app/api/github/readme/route.ts:4-57 | 401 exactly when there is no token; with a token, an unreadable body gives 500; 400 exactly for a readable body with a falsy owner or repo; `NoReadme` exactly on an upstream 404; `Found` exactly on a 2xx reply with content, carrying the decoded content and `download_url`; every other failure of a complete request (another status, a network error, no JSON, no content) is 500 "Failed to fetch README" |
| `ReadmeRoute.NoTokenReadsNothing` | src/app/api/github/readme/route.ts:8-10 | without a token the reply depends on neither the body nor the upstream |
| `ReadmeRoute.MissingFieldsNeverFetch` | src/app/api/github/readme/route.ts:14-19 | a request without owner or repo gets the same reply whatever the upstream would answer |
| `ReadmeRoute.UpstreamFor` | src/app/api/github/readme/route.ts:21-30 | the upstream's answer to the one README request `FetchFor` builds; `ReadmeRoute.Post` is stated in terms of it and `ReadmeRoute.OnlyTheReadmeRequestMatters` shows nothing else of the upstream matters |
| `ReadmeRoute.OnlyTheReadmeRequestMatters` | src/app/api/github/readme/route.ts:22-31 | the reply depends on the upstream only through its answer to the one README request |
| `ReadmeRoute.ReadmeUrl` | src/app/api/github/readme/route.ts:22-23 | the URL is the `https://api.github.com/repos/` prefix, `owner/repo` and the `/readme` suffix |
| `ReadmeRoute.FetchFor` | src/app/api/github/readme/route.ts:22-31 | the upstream request goes to the README URL with exactly the three headers: the bearer token, the `User-Agent` and the v3 `Accept` type |
| `ReadmeRoute.ReadmeUrlRoundTrip` | src/app/api/github/readme/route.ts:22-23 | the upstream URL is `repos/{owner}/{repo}/readme`: a slash-free owner and the repository are read back from it |
| `ReadmeRoute.ReadmeUrlInjective` | src/app/api/github/readme/route.ts:22-23 | distinct repositories are fetched at distinct URLs |
| `Schemas.CheckProblem` | src/types/github.ts:11-16 | a check fails exactly when the string is shorter than the minimum, is not a URL, or does not have the date shape; a failure carries the schema's own message |
| `Schemas.StringProblems` | src/types/github.ts:11 | a string has no problems exactly when every one of its checks passes |
| `Schemas.ParseValue` | src/types/github.ts:9-31 | a value parses as valid exactly when it raises no problem |
| `Schemas.ParseFields` | src/types/github.ts:9-19 | the parsed object has only keys of the shape (unknown keys are dropped), and an aborted field always leaves an issue |
| `Schemas.SafeParse` | src/types/github.ts:9-31 | a non-object input fails with one type issue at the root; an object succeeds exactly when every field of the shape parses as valid; success keeps only shape keys and failure carries at least one issue |
| `Schemas.FieldsCleanIff` | src/types/github.ts:9-19 | an object raises no issue exactly when every field of the shape parses as valid |
| `Schemas.FieldsOutput` | src/types/github.ts:9-19 | after a clean parse each field is written with its parsed value, unless that value is `undefined` and the key was absent |
| `Schemas.ParseFieldsAppend` | src/types/github.ts:22-24 | parsing an extended shape gives the base issues followed by the extension's, and keeps the base outputs |
| `Schemas.Put` | src/types/github.ts:22-24 | the assigned key holds the new schema; a key the shape lacks is appended at the end; in a shape with distinct keys, an existing key is replaced in place and every other entry stays where it was |
| `Schemas.PutKeys` | src/types/github.ts:22-24 | assigning a property adds its key and removes none |
| `Schemas.Extend` | src/types/github.ts:22 | `extend` assigns the extension's keys over the base one by one; its contract is stated by `Schemas.ExtendKeys`, `Schemas.ExtendFreshKeys`, `Schemas.ExtendOverridesBase` and `Schemas.ExtendPreservesBase` |
| `Schemas.ExtendKeys` | src/types/github.ts:22-24 | the extended shape declares exactly the keys of the base and of the extension |
| `Schemas.ExtendFreshKeys` | src/types/github.ts:22-24 | extending with new, distinct keys appends the extension after the base, in order |
| `Schemas.ExtendOverridesBase` | src/types/github.ts:22 | a key the base already has replaces its schema: `{a: string}` extended with `{a: number}` accepts `{a: 1}`, which the base rejects |
| `Schemas.ExtendPreservesBase` | src/types/github.ts:22 | what `base.extend(extra)` accepts with new, distinct keys, `base` accepts, with the same value for every base field |
| `Schemas.PortfolioRepoShapeAppends` | src/types/github.ts:22-24 | `readme_content_html` is new to `RepoShape`, so `PortfolioRepoShape` is the repository fields followed by it |
| `Schemas.PortfolioRepoIsRepo` | src/types/github.ts:22-24 | every value the README-extended schema accepts also meets every repository schema constraint, with equal field values |
| `Schemas.GithubIdAccepted` | src/types/github.ts:28 | `GithubIdSchema` accepts `githubId` if and only if it is a non-empty string |
| `Schemas.BirthDateAccepted` | src/types/github.ts:30 | `BirthDateSchema` accepts `birthDate` if and only if it is absent, `""`, or four digits, `-`, two digits, `-`, two digits |
| `Schemas.DateShapeSplits` | src/types/github.ts:30 | a date-shaped string is its four year digits, a dash, two month digits, a dash and two day digits |
| `Schemas.DatePartsJoin` | src/types/github.ts:30 | four, two and two digits joined by dashes are date-shaped |
| `Schemas.IsDateShape` | src/types/github.ts:30 | ten characters: four digits, `-`, two digits, `-`, two digits; `Schemas.DateShapeIsPattern` proves this is the regular expression's language |
| `Schemas.DateShapeIsPattern` | src/types/github.ts:30 | a string matches `^\d{4}-\d{2}-\d{2}$` exactly when it is four, two and two digits joined by `-` |
| `Schemas.DateStringParse` | src/types/github.ts:30 | the optional date-string option of the union: valid when undefined or date-shaped, a type issue for non-strings, the schema's message otherwise |
| `Schemas.BirthDateShapeMessage` | src/types/github.ts:30 | a non-empty string of the wrong shape reports the birth-date message, not a failed union |
| `Schemas.NoCalendarCheck` | src/types/github.ts:30 | "9999-99-99" is accepted |
| `Schemas.UserInputAccepted` | src/types/github.ts:27-31 | `UserInputShape` accepts the user input form if and only if `githubId` is a non-empty string and `birthDate` is acceptable |
| `Schemas.NullableTextDefaults` | src/types/github.ts:12-13 | `NullableText`: a missing value becomes `null`; `null` and strings are kept; anything else aborts |
| `Schemas.ReadmeContentDefault` | src/types/github.ts:23 | `ReadmeContentSchema`: a missing `readme_content_html` becomes "README.md 내용이 없습니다."; a string is kept unchanged; anything else, `null` included, aborts |
| `Schemas.RepoKeysDistinct` | src/types/github.ts:9-24 | the extended repository schema declares each key once |
| `Schemas.AcceptedRepo` | src/types/github.ts:9-19 | `RepoShape` accepts a repository only with a non-empty name, and `description` and `language` are strings or `null` (`null` when missing) |
| `Schemas.AcceptedPortfolioRepo` | src/types/github.ts:22-24 | an accepted extended record has `readme_content_html`: the notice when it was missing, the supplied value otherwise |
| `AppErrors.Parent` | src/lib/errors/app-errors.ts:8-44 | each class's parent is one level nearer `Error` |
| `AppErrors.Extends` | src/lib/errors/app-errors.ts:8-44 | an ancestor is never deeper than its descendant, and the only ancestor at the same depth is the class itself |
| `AppErrors.InstanceOf` | src/lib/errors/app-errors.ts:8-44 | every error is an instance of `Error` and of its own class, and never of a class deeper than its own |
| `AppErrors.NewAppError` | src/lib/errors/app-errors.ts:14-16 | keeps the message; stores an explicit status unchanged and uses 500 when none is given; the name is "AppError" |
| `AppErrors.NewGitHubApiError` | src/lib/errors/app-errors.ts:30-33 | keeps the message; forwards the status, 500 when none is given; the name is "GitHubApiError" |
| `AppErrors.NewValidationError` | src/lib/errors/app-errors.ts:41-44 | keeps the message; the status is always 400; the name is "ValidationError" |
| `AppErrors.SubclassInstances` | src/lib/errors/app-errors.ts:24-44 | both subclasses are `AppError`s and `Error`s; a plain `AppError` is neither subclass; the subclasses are unrelated |
| `AppErrors.ExtendsIsAncestry` | src/lib/errors/app-errors.ts:8-44 | a class extends exactly itself, `Error`, and (for the subclasses) `AppError` |

## Left out

- Session retrieval via `auth()`: the token is a parameter of `ReadmeRoute.Post`.
- Environment-variable reads and client construction. In the GPT handler a missing API key makes `new OpenAI` throw before the prompt is rendered, which ends in the same 500 as a failed call, so `RequestFailed` covers it. In the Gemini handler, creating the client and the model object throws nothing; a missing key makes the `generateContent` call fail after the prompt is rendered, which `Failed` covers.
- Console logging and `Error.captureStackTrace`: neither affects a reply.
- The Gemini and OpenAI SDK calls: they are foreign and nondeterministic. Each is an oracle parameter that receives the request the handler builds.
- Base64 decoding with `Buffer`: a foreign call, modelled by the `decode` oracle parameter. A missing or `null` `content` makes `Buffer.from` throw, and this is modelled as a 500. Non-string content (`Buffer.from` also accepts arrays and array-like objects) is not modelled: `content` is a string or absent.
- `new Date(s).toLocaleDateString('ko-KR')`: locale- and time-zone-dependent, modelled by the `formatDate` parameter.
- Zod's `.url()` check: library behaviour, modelled by the `isUrl` parameter. Zod's built-in issue wording and the nested `unionErrors` of an `invalid_union` issue are not modelled. Only the issue code and the schema's own message are.
- The schema semantics are Zod 3's: the valid, dirty and aborted statuses and the `invalid_union` issue of a failed `or`. The Zod version the application installs is not part of this model, and Zod 4 reports a failed union differently.
- JSON numbers are integers in `Schemas.Json`. Fractions, `NaN` and infinities are not modelled.
- Counts in the prompts are naturals rendered in decimal. JavaScript's rendering of `undefined`, fractions and values of 10^21 or more is not modelled.
- Payload fields are assumed to have their documented types. For example, interpolating a missing `name` as the text "undefined" is not modelled, and neither are non-string `owner`/`repo` values or non-string topics.
- `substring` counts UTF-16 code units. Strings here are sequences of characters, so a README whose cut falls inside a surrogate pair is not modelled.
- `Schemas.ExtendPreservesBase`: stated only for an extension whose keys are new and distinct, because an extension key the base already has replaces the base schema (`Schemas.ExtendOverridesBase` shows the base's guarantee failing then).
- `GeminiRoute.PromptIgnoresUnlisted`: "at most ten entries" is stated as "the prompt is determined by the first ten repositories", plus each of them appearing. The number of entry-like substrings in the prompt text is not counted.
- `GptRoute.PromptIgnoresUnlisted`: the same as for the Gemini prompt.
- HTTP serialisation by `NextResponse.json`: each reply is a datatype value that carries its status code.
- src/app/page.tsx (UI and session hooks) and src/app/api/github/user/route.ts (two sequential fetches echoed unchanged) are not part of this model.
- The client-side fan-out that fetches every README and merges the results is not in the modelled sources. Its ordering and partial-failure policy are not part of this model.
