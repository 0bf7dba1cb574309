# hirewiser-portfolio, modelled in Dafny

This project models the logic of the hirewiser portfolio front end. That front
end serves one portfolio per subdomain. It fetches the owner's profile and
renders it with one of three templates.

What is modelled:

- **Normalizing the profile.** `transformUserData` turns the loosely typed
  profile into the template 01 data shape. `extractUsername` reads the
  portfolio owner off the `Host` / `X-Forwarded-Host` header.
- **Choosing what to render.**
  - The server page's outcome: no subdomain, error, or content.
  - The template registry.
  - The portfolio context's selectors.
  - The five page dispatchers, which switch on the template name.
- **The view helpers of templates 01, 03 and 04.** These are the pure decisions
  hidden in the components:
  - stripping tags and truncating text;
  - picking live and GitHub links;
  - reading Cal.com usernames;
  - pairing sentences into paragraphs;
  - ordered icon tables;
  - core/other and main/other partitions;
  - status colours;
  - first-N slices with their "+N more" counters;
  - the stable sort that puts image-icon skills first;
  - gating each section on its data.

A component becomes a function from its props to a datatype describing what it
shows. The markup itself is not modelled.

Conventions:

- **Values and strings.**
  - A nullable value is an `Option`. A JavaScript truthiness test on a string is `Present` (`Some` and not `""`), and `a || b` on strings is `Or`.
  - Strings are `seq<char>`. Lower- and upper-casing are ASCII only.
  - `includes`, `startsWith`, `endsWith`, `split`, `join` and `trim` are defined in the `Strings` module.
- **Library calls become parameters.** These parts of the JavaScript library, the browser or the fetch are parameters of the functions that use them:
  - year extraction (`getFullYear`);
  - locale date formatting;
  - the `URL` parser's path (`None` when it throws);
  - the fetch outcome;
  - the theme;
  - whether an image loads;
  - which logo the pointer is over.
- **Data types.** They follow `src/types/portfolio.types.ts` (module `Portfolio`) and `src/components/portfolio-data-provider.tsx` (module `Profile`).
- **Object maps.** The `contact.social` object and the template registry are association lists in first-assignment order. JavaScript's order differs for integer-like keys; see "## Left out".

Module layout:

- **Shared helpers:** `Wrappers`, `Strings`, `Seqs` and `Html`.
- **One module per source component:**
  - `Normalize` and `Host` for `portfolio-utils.ts`;
  - `Registry`, `ServerPage`, `Context` and `Dispatch`;
  - `Cards` for both project cards;
  - `Contact` for both contact sections;
  - `About03`, `Hero03`, `Related03`, `Kpis03`, `Root03` and `Urls`;
  - `Root04`, `Hero04`, `Work04`, `Projects04`, `Skills04`, `Github04`, `Links04` and `Meta04`;
  - `Index01`, `Icons01` and `Navbar01`.

Three behaviours of the code that are easy to misread, modelled as the code
has them:

- **Template 03's `getCalUsername`.** It takes `split("cal.com/")[1]`. That is the text between the first and the second "cal.com/", not everything after the first.
- **Template 04's booking link.** It comes from the regular expression `cal\.com\/(.+)`. The capture stops at a line terminator. An occurrence of "cal.com/" with nothing usable after it is skipped, and the search goes on to the next one.
- **Template 04's fallback contact button.** Its click handler opens cal.com only when a link is set. The button is only shown when no link is set, so it never opens anything.

## Model

| member | source | states |
|---|---|---|
| Normalize.SkillNames | src/lib/portfolio-utils.ts:85 | a missing skillset gives []; otherwise the names of the skills that have a truthy name, in input order; no name is empty |
| Normalize.WorkOf | src/lib/portfolio-utils.ts:87-95 | the company is non-empty iff the experience has a company name; `end` is null iff the end date is missing; href is "" and badges are [] |
| Normalize.WorkList | src/lib/portfolio-utils.ts:87-96 | a missing list gives []; the survivors are exactly the mapped entries with a company, in input order, each with a non-empty company |
| Normalize.SchoolOf | src/lib/portfolio-utils.ts:98-104 | the school is non-empty iff `eduFrom` is truthy; a missing end date gives end "" |
| Normalize.SchoolList | src/lib/portfolio-utils.ts:98-105 | a missing list gives []; the survivors are the mapped entries with a school, in order, each with a non-empty school |
| Normalize.LinkOf | src/lib/portfolio-utils.ts:108-112 | a project link's type is its title, or "Website" when the title is missing; the title is kept |
| Normalize.ProjectLinks | src/lib/portfolio-utils.ts:108-120 | every link has a non-empty href; with `p.link` set, element 0 is the Website link to it; the rest are the project's own links with a truthy URL, in order |
| Normalize.ProjectDates | src/lib/portfolio-utils.ts:125 | starts with the start year (or "") and " - ", and ends with the end year, or with " - Present" when the end is missing |
| Normalize.ProjectOf | src/lib/portfolio-utils.ts:107-131 | the title is non-empty iff given; links are ProjectLinks; href is `link` or ""; video is ""; technologies are the named skills |
| Normalize.ProjectList | src/lib/portfolio-utils.ts:107-132 | a missing list gives []; the survivors are the mapped projects with a title, in order |
| Normalize.CertificateLinks | src/lib/portfolio-utils.ts:135-139 | at most one link, present iff `c.link` is truthy, whose type is `linkName` or "Open Link" |
| Normalize.CertificateDates | src/lib/portfolio-utils.ts:145 | a missing end date omits the " - year" suffix; otherwise the suffix is " - " and the end year |
| Normalize.HackathonOf | src/lib/portfolio-utils.ts:134-148 | the title is non-empty iff given; at most one link |
| Normalize.HackathonList | src/lib/portfolio-utils.ts:134-149 | a missing list gives []; the survivors are the mapped certificates with a title, in order, each with at most one link |
| Normalize.MissingEnd | src/lib/portfolio-utils.ts:94-145 | a missing end date shows four ways: work end is null, education end is "", project dates end in "Present", certificate dates are the start year alone |
| Normalize.SocialOf | src/lib/portfolio-utils.ts:160-164 | every social entry is flagged for the navbar |
| Normalize.Put | src/lib/portfolio-utils.ts:160 | assigning a key keeps keys unique; an existing key keeps its position; a new key goes last; the key then maps to the value; every other key keeps its value |
| Normalize.BuildSocial | src/lib/portfolio-utils.ts:157-166 | the contact map has unique keys, and every value is flagged for the navbar |
| Normalize.LastSocial | src/lib/portfolio-utils.ts:157-166 | the reference reading: the last link with a title and a URL whose lower-cased title is the key; none iff there is no such link |
| Normalize.SocialIsLast | src/lib/portfolio-utils.ts:157-166 | the built map answers every key with the last qualifying link for that key: later links overwrite earlier ones |
| Normalize.SocialKeys | src/lib/portfolio-utils.ts:157-166 | a key is in the map iff some link with a title and a URL has that lower-cased title |
| Normalize.DisplayName | src/lib/portfolio-utils.ts:79 | the name has no surrounding space; with both parts missing it is ""; with tidy parts it is "first last", or the present part alone |
| Normalize.Initials | src/lib/portfolio-utils.ts:80 | one upper-cased character per present part, so at most two |
| Normalize.TransformUserData | src/lib/portfolio-utils.ts:76-191 | the fixed fields and defaults; the skills, work, education, projects and certificates are exactly the lists the per-entry normalizers produce (the survivors, in input order); the name, and the initials with the first and the last name's letters; a contact map with unique keys |
| Normalize.ProfileSocial | src/lib/portfolio-utils.ts:151-166 | the normalized profile's contact map answers each key with the last qualifying link for it |
| Host.ActualHost | src/lib/portfolio-utils.ts:197 | a truthy X-Forwarded-Host takes precedence over Host, which falls back to "" |
| Host.Labels | src/lib/portfolio-utils.ts:203 | the host splits into at least one dot-free label, and the labels joined by "." give the host back |
| Host.ExtractUsername | src/lib/portfolio-utils.ts:194-224 | 3+ labels: valid iff the rest is an allowed base domain and the first label, lower-cased, is not reserved; 2 labels: valid iff the second contains "localhost"; 1 label: invalid; the username is the first label, case kept, or "" when invalid |
| Host.BaseDomainLabels | src/lib/portfolio-utils.ts:207-209 | the rest of the host is an allowed base domain iff its labels are exactly that domain's two labels |
| Host.Examples | src/lib/portfolio-utils.ts:205-220 | alice.cofounds.in gives "alice"; Www.cofounds.in is reserved whatever its case; bob.localhost:3000 gives "bob" |
| Registry.Lookup | src/templates/index.ts:55-63 | a registry lookup finds nothing iff the key is absent, and otherwise finds that key's entry |
| Registry.Keys | src/templates/index.ts:70-72 | the ids are the registry's keys, in order |
| Registry.Values | src/templates/index.ts:89-91 | the templates are the registry's entries, in order |
| Registry.LookupAt | src/templates/index.ts:55-63 | with unique keys, every key looks up its own entry |
| Registry.KeysValuesAgree | src/templates/index.ts:70-91 | the id list and the template list have equal length, and each id looks up the template at the same position |
| Registry.TemplatesWellFormed | src/templates/index.ts:27-41 | the registry has unique keys, every entry's id equals its key, and it holds one template |
| Registry.GetTemplate | src/templates/index.ts:55-63 | a missing or empty id gives undefined; otherwise a template iff the id is a key, and then the one whose id is that id |
| Registry.GetAvailableTemplateIds | src/templates/index.ts:70-82 | an id is listed iff `templateExists` holds for it; one id per entry |
| Registry.GetAllTemplates | src/templates/index.ts:89-91 | as many templates as ids, and the i-th template is what `getTemplate` gives for the i-th id |
| Registry.ClassicTemplate | src/templates/index.ts:27-41 | "template-01" gives the "Classic Portfolio" entry, whose config has the same id and name |
| ServerPage.Load | src/app/page.tsx:19-29 | exactly one of data and error is set; a thrown fetch gives "Failed to load portfolio"; an unsuccessful or empty response gives its message or "Portfolio not found" |
| ServerPage.Page | src/app/page.tsx:6-38 | an invalid subdomain gives the no-subdomain page and no fetch; otherwise one fetch for the username; an error page carries that username; a content page has no error |
| ServerPage.PageOutcomes | src/app/page.tsx:19-37 | with a valid subdomain the page is the content of the normalized profile iff the response succeeded with data, and otherwise the error page |
| ServerPage.NoFetchWithoutSubdomain | src/app/page.tsx:8-13 | with an invalid subdomain the outcome does not depend on the fetcher |
| Context.TemplateOf | src/context/PortfolioContext.tsx:69 | the selectors' template is the portfolio's template, whatever else is found |
| Context.AllDetails | src/context/PortfolioContext.tsx:61-65 | data, loading flag and error pass through unchanged |
| Context.AllProjects | src/context/PortfolioContext.tsx:67-72 | the stored project list, unchanged, exactly when there is one; template, loading flag and error pass through |
| Context.AllExperience | src/context/PortfolioContext.tsx:74-79 | the stored experience list, unchanged, exactly when there is one; template, loading flag and error pass through |
| Context.AllEvents | src/context/PortfolioContext.tsx:81-86 | the stored event list, unchanged, exactly when there is one; template, loading flag and error pass through |
| Context.ProjectById | src/context/PortfolioContext.tsx:88-98 | the first project with that id, or undefined iff there is no list or no project with that id; template, loading and error pass through |
| Context.ExperienceById | src/context/PortfolioContext.tsx:100-110 | the first experience with that id, or undefined iff none has it; template, loading and error pass through |
| Context.ProjectByOwnId | src/context/PortfolioContext.tsx:88-91 | with unique ids, looking a listed project up by its own id finds it |
| Dispatch.TemplateName | src/pages/root-page.tsx:9 | the name switched on is present iff data and its template are |
| Dispatch.Switch | src/pages/experiences-page.tsx:8-21 | "template-03" selects template 03's page for the route; "template-04" selects template 04's page, except on the experience routes where it renders nothing; any other or missing name gives the not-found message |
| Dispatch.RootPage | src/pages/root-page.tsx:9-23 | RootPage03 iff the name is "template-03", RootPage04 iff "template-04", the not-found message otherwise |
| Dispatch.ProjectsPage | src/pages/projects-page.tsx:9-22 | ProjectsPage03 iff "template-03", ProjectsPage04 iff "template-04", the fallback otherwise |
| Dispatch.ProjectPage | src/pages/project-page.tsx:9-22 | ProjectPage03 iff "template-03", ProjectPage04 iff "template-04", the fallback otherwise |
| Dispatch.ExperiencesPage | src/pages/experiences-page.tsx:8-21 | ExperiencesPage03 iff "template-03"; nothing (not the fallback) iff "template-04"; the fallback otherwise |
| Dispatch.ExperiencePage | src/pages/experience-page.tsx:8-21 | ExperiencePage03 iff "template-03"; nothing iff "template-04"; the fallback otherwise |
| Dispatch.RoutesAgree | src/pages/projects-page.tsx:9-22 | all five dispatchers agree on which data is not found, and a selected page always belongs to the data's template |
| Dispatch.CaseSensitive | src/pages/root-page.tsx:12-22 | names are compared exactly: "Template-03" and "template-3" are not templates |
| Html.AfterTag | src/templates/template-03/components/projects/ProjectCard.tsx:20 | what a tag leaves: a suffix of the text after `<`, empty when no `>` closes the tag |
| Html.StripTags | src/templates/template-03/components/projects/ProjectCard.tsx:20 | the stripped text is no longer than its input, has no `<`, and equals an input without `<` |
| Html.StripHtml | src/templates/template-03/components/projects/ProjectCard.tsx:15-21 | null or "" gives ""; the output has no `<`, is no longer than the input, and is the input itself when it has no `<` |
| Html.StripIdempotent | src/templates/template-03/components/About.tsx:21-27 | stripping twice strips nothing more |
| Html.StripPlainPrefix | src/templates/template-03/components/projects/RelatedProjects.tsx:10-16 | text without `<` passes through unchanged in front of whatever follows |
| Html.StripClosedTag | src/templates/template-04/components/projects/ProjectCard.tsx:11-17 | a closed tag `<…>` is deleted with its brackets |
| Html.StripOpenTag | src/templates/template-04/components/projects/ProjectCard.tsx:11-17 | an unclosed `<` deletes the rest of the text |
| Cards.CardTone | src/templates/template-03/components/projects/ProjectCard.tsx:27-64 | green iff "Completed", yellow iff "In Progress", blue iff "Planning", red iff "On Hold"; anything else is gray |
| Cards.CardToneDistinct | src/templates/template-04/components/projects/ProjectCard.tsx:25-58 | two statuses with the same non-gray style are the same status |
| Cards.ValidLinks | src/templates/template-03/components/projects/ProjectCard.tsx:66-68 | no links gives []; every valid link comes from the input and has a URL that is non-empty after trimming; every such input link is valid |
| Cards.LiveLink | src/templates/template-03/components/projects/ProjectCard.tsx:70-75 | defined iff there is a valid link; the first valid link whose lower-cased title has website/live/demo, else the first valid link |
| Cards.GithubLink | src/templates/template-03/components/projects/ProjectCard.tsx:77-79 | undefined iff no valid link's lower-cased title has "github"; otherwise the first such link |
| Cards.Shorten | src/templates/template-04/components/projects/ProjectCard.tsx:80-82 | text within the cap is kept; longer text becomes its first n characters plus "..." |
| Cards.CardDescription | src/templates/template-03/components/projects/ProjectCard.tsx:81-88 | never empty and never holds `<`; an empty stripped description gives "No description available."; otherwise the stripped text cut to 75 characters plus "...", or whole when it fits |
| Cards.CodeSumAppend | src/templates/template-03/components/projects/ProjectCard.tsx:109-112 | the char-code sum of a concatenation is the sum of the parts' sums |
| Cards.GradientOf | src/templates/template-03/components/projects/ProjectCard.tsx:109-113 | the gradient index is always one of the ten |
| Cards.GradientSwap | src/templates/template-04/components/projects/ProjectCard.tsx:104-110 | titles that are rotations of each other get the same gradient |
| Cards.Gradient | src/templates/template-04/components/projects/ProjectCard.tsx:104-110 | the loop that folds the char codes computes the gradient index, in range |
| Cards.ProjectCard03 | src/templates/template-03/components/projects/ProjectCard.tsx:23-235 | image iff a preview is set; the gradient of the title; the live link and the GitHub link as the two pickers choose them from the valid links; the stripped, shortened description; at most two badges, with a "+N more" counter; status defaults to "In Progress" and its colour follows it; no year |
| Cards.ProjectCard04 | src/templates/template-04/components/projects/ProjectCard.tsx:19-236 | template 03's card plus the start year, shown iff a start date is set |
| Related03.RelatedTile | src/templates/template-03/components/projects/RelatedProjects.tsx:29-115 | a status badge iff a status, with its card colour; the description is the tag-stripped text; the first three skills, with a "+N" counter holding N = count - 3 iff there are more than three |
| Related03.RelatedProjects | src/templates/template-03/components/projects/RelatedProjects.tsx:18-21 | nothing for a missing or empty list; otherwise one tile per project, in order |
| Kpis03.ColumnOf | src/templates/template-03/components/projects/ProjectKPIs.tsx:45-79 | the placeholder iff no KPI of the column's type; otherwise the points of exactly those KPIs, in order |
| Kpis03.ProjectKpis | src/templates/template-03/components/projects/ProjectKPIs.tsx:25-85 | nothing for a missing or empty list; otherwise the challenges column and the learnings column, each the points of exactly its type in order, or its "No … listed" placeholder iff there are none |
| Kpis03.KpiPartition | src/templates/template-03/components/projects/ProjectKPIs.tsx:31-32 | challenges, learnings and other KPIs together count every KPI once |
| Kpis03.KnownKindsShown | src/templates/template-03/components/projects/ProjectKPIs.tsx:31-32 | when every KPI has a known type, the two columns hold them all |
| About03.TruncateWords | src/templates/template-03/components/About.tsx:39-48 | truncated iff more words than the limit; untruncated text is unchanged; truncated text ends with "..." |
| About03.TruncateKeepsWords | src/templates/template-03/components/About.tsx:39-48 | truncated text is the first `maxWords` words joined by single spaces, then "..." |
| About03.AboutView | src/templates/template-03/components/About.tsx:29-128 | the avatar iff a truthy avatar, with name or "Profile" as alt; name defaults to "Your Name"; the full text or the stripped text cut to 30 words; "Read more" iff cut and not expanded; first five skills, with "+N more" iff more than five and not expanded |
| Hero03.IconFor | src/templates/template-03/components/Hero.tsx:26-48 | each table key gets its icon (x and twitter share one; calcom and cal.com; product_hunt and "product hunt"); anything else is the globe |
| Hero03.TitleIconIgnoresCase | src/templates/template-03/components/Hero.tsx:199-201 | the icon depends on the title only up to case |
| Hero03.SocialAnchors | src/templates/template-03/components/Hero.tsx:191-220 | one anchor per link with both URL and title, in the links' order and keeping duplicates; each href starts with "http"; each label is non-empty |
| Hero03.AvatarOf | src/templates/template-03/components/Hero.tsx:90-101 | the image when it is not blank and loads; otherwise the default avatar |
| Hero03.HeroView | src/templates/template-03/components/Hero.tsx:83-244 | at most three event badges; the core skills are the skillset's core skills in order; the mail icon iff an email; the contact mailto falls back to contact@example.com |
| Root03.ExtractGitHubUsername | src/templates/template-03/root-page.tsx:10-21 | "" gives null; the address gets "https://" unless it starts with "http"; a parse failure gives null; otherwise the first non-empty path segment, or null |
| Root03.FoundUrl | src/templates/template-03/root-page.tsx:54-57 | the URL of the first matching link, or "" when there is none |
| Root03.ExtractCalcomLink | src/templates/template-03/root-page.tsx:23-40 | enabled iff the link is non-empty, and then it is the URL of the first integrated link titled "cal.com" or whose URL contains it |
| Root03.SortSkillsPartition | src/templates/template-03/root-page.tsx:97-105 | `Root03.SortSkills`, the stable `skillset.slice().sort(...)` at line 100: the sorted skills are the https-icon skills in input order, then all the others in input order |
| Root03.InsertText | src/templates/template-03/root-page.tsx:100-104 | the comparator puts a text-icon skill after every image-icon skill and before the other text-icon skills |
| Root03.SortSkillsPermutes | src/templates/template-03/root-page.tsx:97-105 | the sort is a permutation of the skillset |
| Portfolio.FullName | src/templates/template-03/root-page.tsx:75 | the display name is "first " plus the last name or "", untrimmed, ending in the last name when there is one; template 04 builds the same name for its contact section (src/templates/template-04/root-page.tsx:104-106) |
| Root03.RootPage03 | src/templates/template-03/root-page.tsx:42-150 | loading iff no data; the display name and the email; the skills in partitioned order; the GitHub section iff integrations are on and a username is found, showing the username of the first integrated "github" link; the contact section iff integrations are on and there is a Cal.com link, carrying that link |
| Urls.WithScheme | src/templates/template-03/root-page.tsx:15 | the address starts with "http": unchanged when it did, else prefixed with "https://" |
| Urls.WithSchemeIdempotent | src/templates/template-04/components/GitHubContributions.tsx:34-36 | prefixing twice adds nothing |
| Urls.FirstSegment | src/templates/template-03/root-page.tsx:17 | null iff every path segment is empty; otherwise the first non-empty segment, which has no "/" |
| Urls.SegmentAfterSlash | src/templates/template-04/components/GitHubContributions.tsx:38 | the path "/name" yields "name" |
| Contact.ContactAvatar | src/templates/template-03/components/ContactSection.tsx:72-83 | the photo iff a truthy image, with the name or "Profile" as alt; otherwise the initials, or "U" |
| Contact.CalUsername | src/templates/template-03/components/ContactSection.tsx:28-47 | null for a missing link; with "cal.com/", the text up to the next "cal.com/" cut at the first "?", or null if empty; a bare name with no "/" and no "http" as it is; null otherwise |
| Contact.CalUsernameOfPath | src/templates/template-03/components/ContactSection.tsx:34-37 | "cal.com/name" yields exactly "name" |
| Contact.CalUsernameOfName | src/templates/template-03/components/ContactSection.tsx:39-41 | a bare name is its own username |
| Contact.ContactSection03 | src/templates/template-03/components/ContactSection.tsx:49-190 | the booking dialog iff a username can be read off the link; otherwise a "Get in Touch" anchor to #contact; preText and linkText fall back to their defaults |
| Contact.FallbackClick | src/templates/template-04/components/ContactSection.tsx:106-108 | the fallback button opens https://cal.com/ plus the link iff the link is truthy |
| Contact.ContactSection04 | src/templates/template-04/components/ContactSection.tsx:16-160 | nothing iff integrations are off (on by default); the booking button iff the link is truthy; prop defaults apply to missing props |
| Contact.FallbackOpensNothing04 | src/templates/template-04/components/ContactSection.tsx:52-108 | whenever the fallback button is shown, its click opens nothing |
| Root04.LineOf | src/templates/template-04/root-page.tsx:117 | `.+` consumes the longest prefix without a line terminator |
| Root04.CalMatch | src/templates/template-04/root-page.tsx:117 | a capture is non-empty and on one line; no "cal.com/" gives no capture |
| Root04.CalMatchAfter | src/templates/template-04/root-page.tsx:117 | for a one-line address the capture is everything after the first "cal.com/", query included |
| Root04.CalLinkOf | src/templates/template-04/root-page.tsx:111-121 | the capture from the first link whose URL contains "cal.com"; the username when there is no such link or no capture |
| Root04.CalLinkOfBookingUrl | src/templates/template-04/root-page.tsx:111-121 | a first link "https://cal.com/name" books "name" |
| Root04.InitialsAsWritten | src/templates/template-04/root-page.tsx:107-110 | the code's initials: with a first name, its first character then the last name's, if any; with an empty first name, text starting with "undefined" |
| Root04.InitialsAsWrittenShowsUndefined | src/templates/template-04/root-page.tsx:107-110 | a visitor with no first name and no photo gets "undefined" on the avatar disc |
| Root04.InitialsOf | src/templates/template-04/root-page.tsx:107-110 | at most two characters, not upper-cased; empty iff both names are missing; equals the code's initials whenever there is a first name |
| Root04.UnnamedGetsDefaultDisc | src/templates/template-04/components/ContactSection.tsx:71 | with the corrected initials, an unnamed visitor without a photo gets the "U" disc |
| Root04.ContactOf | src/templates/template-04/root-page.tsx:102-123 | the avatar from the photo, the display name and the initials as the page computes them; a booking button iff the booking link is non-empty |
| Root04.ContactOfIntended | src/templates/template-04/root-page.tsx:107-110 | with a first name, the page's disc is the one the corrected initials give |
| Root04.RootPage04 | src/templates/template-04/root-page.tsx:11-30 | loading first; then the error line iff an error or no data; otherwise the sections fed from the data, with the contact section as the page builds it |
| Root04.BookingWithUsername | src/templates/template-04/root-page.tsx:111-121 | a user with a username always gets the booking button |
| Root04.PageShowsUndefined | src/templates/template-04/root-page.tsx:102-123 | a loaded portfolio without first name, last name or photo shows "undefined" on the contact disc |
| Hero04.Pairs | src/templates/template-04/components/Hero.tsx:160-168 | one piece per consecutive pair, ⌈n/2⌉ in all |
| Hero04.PairsJoin | src/templates/template-04/components/Hero.tsx:160-168 | rejoining the pairs gives the original join: no text is lost |
| Hero04.Chunks | src/templates/template-04/components/Hero.tsx:157-169 | at most ⌈pieces/2⌉ paragraphs, each non-empty and trimmed |
| Hero04.FormatDescription | src/templates/template-04/components/Hero.tsx:156-171 | text with no ". " gives its own trim; no chunk gives ""; one chunk gives that chunk |
| Hero04.PairsOfText | src/templates/template-04/components/Hero.tsx:157-163 | the sentence pairs rejoined with ". " are the description |
| Hero04.GetIcon | src/templates/template-04/components/Hero.tsx:76-84 | github, then twitter/x.com, then linkedin, then mail, then external, each only when no earlier test holds |
| Hero04.MailtoIsMail | src/templates/template-04/components/Hero.tsx:81 | the "mailto:" test adds nothing to the "mail" test |
| Hero04.LinkOf | src/templates/template-04/components/Hero.tsx:184-188 | the href is the URL or "#" (external icon); the label is the lower-cased title |
| Hero04.HeroView | src/templates/template-04/components/Hero.tsx:141-192 | the lower-cased first name, the header with its default, the description as formatted paragraphs or "", one link per profile link |
| Work04.FormatDate | src/templates/template-04/components/Work.tsx:134-138 | "" for an empty date, else the formatter's text |
| Work04.Timeline | src/templates/template-04/components/Work.tsx:149-151 | "start - end", with "Present" iff the end is null or empty |
| Work04.MarkOf | src/templates/template-04/components/Work.tsx:77-85 | the logo iff a truthy logo URL; otherwise the upper-cased first character of the name, or nothing for an empty name |
| Work04.ItemOf | src/templates/template-04/components/Work.tsx:140-220 | links the company iff it has a website; a missing description shows "No description added" |
| Work04.CompanyNameAsWritten | src/templates/template-04/components/Work.tsx:69 | removes the first " logo" in the alt text, wherever it is |
| Work04.CompanyNameAsWrittenLosesWord | src/templates/template-04/components/Work.tsx:69 | "A logo B logo" becomes "A B logo" |
| Work04.CompanyNameOf | src/templates/template-04/components/Work.tsx:268 | removes the " logo" suffix the component appended |
| Work04.CompanyNameRoundTrip | src/templates/template-04/components/Work.tsx:268 | every company name is recovered from the alt text built for it |
| Work04.CompanyNamesAgree | src/templates/template-04/components/Work.tsx:69 | the two readings agree on names without " logo" |
| Work04.StackZ | src/templates/template-04/components/Work.tsx:270 | z-index at most 40, and exactly 40 for the first logo |
| Work04.LogoOf | src/templates/template-04/components/Work.tsx:62-120 | alt is "name logo"; the tooltip name and letter come from the alt text by replacing the first " logo", which gives the name back when it holds no " logo" of its own; z-index 50 while hovered, else 40-10i; overlaps its neighbour iff not first |
| Work04.LogoLosesWord | src/templates/template-04/components/Work.tsx:69 | a company named "A logo B" is shown as "A B logo" |
| Work04.LogoRow | src/templates/template-04/components/Work.tsx:264-272 | one logo per remaining experience, in order |
| Work04.StackOrder | src/templates/template-04/components/Work.tsx:270 | un-hovered logos stack left over right, and a hovered logo is above all others |
| Work04.WorkView | src/templates/template-04/components/Work.tsx:224-280 | the empty state iff the list is missing or empty; otherwise the first two as entries and the rest as logos, which together count every experience |
| Work04.WorkCoversAll | src/templates/template-04/components/Work.tsx:225-226 | entries then logos cover every experience once, in order |
| Projects04.MediaOf | src/templates/template-04/components/Projects.tsx:73-75 | a video iff the preview ends in .mp4, .webm or .mov |
| Projects04.EmblemOf | src/templates/template-04/components/Projects.tsx:34-44 | the logo iff it is truthy and not "/default.png"; otherwise the title's upper-cased initial |
| Projects04.ItemOf | src/templates/template-04/components/Projects.tsx:141-150 | link "#", logo and preview "/default.png", description "" by default; the summary is the description cut at 85 |
| Projects04.SummaryBounds | src/templates/template-04/components/Projects.tsx:97-99 | the summary has at most 88 characters, keeps the first 85, and is the whole description when that fits |
| Projects04.ProjectsView | src/templates/template-04/components/Projects.tsx:133-160 | at most the first three projects; "view all" iff more than three |
| Projects04.EveryProjectReachable | src/templates/template-04/components/Projects.tsx:133-160 | every project is shown or behind "view all" |
| Projects04.Preloads | src/templates/template-04/components/Projects.tsx:124-130 | one preload per truthy preview, video iff a video extension; all are preloaded iff every preview is truthy |
| Projects04.PreloadsAreFiltered | src/templates/template-04/components/Projects.tsx:124-130 | the preloads are exactly the truthy previews, one each, in the projects' order |
| Skills04.ButtonOf | src/templates/template-04/components/Skills.tsx:10-40 | the icon iff a truthy icon address |
| Skills04.SkillsView | src/templates/template-04/components/Skills.tsx:46-113 | the empty state iff missing or empty; each group's block iff the group is non-empty, in input order; "Other Skills" heading iff both groups exist |
| Skills04.SkillsPartition | src/templates/template-04/components/Skills.tsx:48-49 | core and other skills split the skillset: disjoint, same multiset, no skill lost |
| Github04.CleanUsername | src/templates/template-04/components/GitHubContributions.tsx:27-44 | non-URL input unchanged; URL-like input gives the first non-empty path segment, else the input; a parse failure gives the input |
| Github04.CleanProfileAddress | src/templates/template-04/components/GitHubContributions.tsx:30-39 | "github.com/name" cleans to "name" |
| Github04.SchemeOf | src/templates/template-04/components/GitHubContributions.tsx:20 | dark iff the theme is exactly "dark" |
| Github04.Contributions | src/templates/template-04/components/GitHubContributions.tsx:16-77 | shown iff both switches (default on) and a truthy username; profile href is https://github.com/ plus the cleaned name |
| Links04.OtherPositions | src/templates/template-04/components/projects/ProjectLinks.tsx:32-34 | in increasing order, exactly the positions other than the live and GitHub link |
| Links04.ProjectLinksView | src/templates/template-04/components/projects/ProjectLinks.tsx:14-34 | nothing iff missing or empty; live is the first link titled live/demo/website (no fallback); GitHub is the first titled github/repo; the others are every other position, in increasing order |
| Links04.EveryLinkRendered | src/templates/template-04/components/projects/ProjectLinks.tsx:32-34 | every link lands in some slot |
| Links04.LaterLiveLinkIsOther | src/templates/template-04/components/projects/ProjectLinks.tsx:19-34 | a later live-titled link that is not the repository link is among the others |
| Meta04.MetaTone | src/templates/template-04/components/projects/ProjectMeta.tsx:14-37 | green iff Completed, blue iff In Progress, yellow iff Planning; never red, so "On Hold" is gray |
| Meta04.TonesDiffer | src/templates/template-04/components/projects/ProjectMeta.tsx:14-37 | this panel and the project card colour In Progress, Planning and On Hold differently |
| Meta04.Entry | src/templates/template-04/components/projects/ProjectMeta.tsx:54-60 | an entry appears iff its value is truthy |
| Meta04.MetaView | src/templates/template-04/components/projects/ProjectMeta.tsx:39-121 | nothing iff no field holds more than whitespace (`Meta04.HasData`, the `hasData` test at lines 42-46); a status entry iff a truthy status, with its colour; otherwise some entry is shown |
| Icons01.GetLinkIcon | src/templates/template-01/components/portfolio-icons.tsx:15-53 | a missing or empty title gives external; otherwise the icon of the lower-cased title; github and linkedin are decided first |
| Icons01.IconOf | src/templates/template-01/components/portfolio-icons.tsx:20-52 | github iff "github"; linkedin iff "linkedin" and not "github" |
| Icons01.FirstRule | src/templates/template-01/components/portfolio-icons.tsx:21-52 | external, or the icon of a rule at or after i that matches |
| Icons01.IconOfTable | src/templates/template-01/components/portfolio-icons.tsx:21-52 | the chain of tests is the first matching rule of the ten-rule table |
| Icons01.CaseInsensitive | src/templates/template-01/components/portfolio-icons.tsx:20 | the icon ignores the title's case |
| Icons01.NextGetsX | src/templates/template-01/components/portfolio-icons.tsx:30-32 | "Next" gets the X icon, because it contains "x" |
| Icons01.WebsiteIsWeb | src/templates/template-01/components/portfolio-icons.tsx:48-50 | globe iff "web" and no earlier word |
| Navbar01.PlatformKey | src/templates/template-01/components/responsive-navbar.tsx:20-30 | every platform key is non-empty and lower case |
| Navbar01.PlatformOf | src/templates/template-01/components/responsive-navbar.tsx:91-92 | the platform whose key is the lower-cased name; none iff no key matches |
| Navbar01.PlatformRoundTrip | src/templates/template-01/components/responsive-navbar.tsx:20-30 | every platform's key, in any case, looks that platform up |
| Navbar01.PlatformIgnoresCase | src/templates/template-01/components/responsive-navbar.tsx:91 | the lookup ignores case |
| Navbar01.SocialLinks | src/templates/template-01/components/responsive-navbar.tsx:37-38 | exactly the entries with a navbar flag and a URL |
| Navbar01.DockLinkOf | src/templates/template-01/components/responsive-navbar.tsx:90-109 | a dock link iff the platform is known; caption is the social name or else the key |
| Navbar01.Shown | src/templates/template-01/components/responsive-navbar.tsx:172-186 | shown links are exactly the dock links of the entries with a known platform |
| Navbar01.ShownAppend | src/templates/template-01/components/responsive-navbar.tsx:172-186 | the drawing of two lists of entries is the drawing of the first followed by that of the second, so links keep the entries' order |
| Navbar01.ShownFromSocial | src/templates/template-01/components/responsive-navbar.tsx:37-92 | every shown link comes from a linked entry of the contact map |
| Navbar01.DockOrder | src/templates/template-01/components/responsive-navbar.tsx:37-38 | the dock lists the linked entries of the contact map in the map's order |
| Navbar01.NavbarView | src/templates/template-01/components/responsive-navbar.tsx:36-194 | items are the navbar; quick links iff the navbar is non-empty; the social links are the drawings of the linked entries, each from a linked entry of the contact map |
| Navbar01.SocialEntryShown | src/templates/template-01/components/responsive-navbar.tsx:37-109 | every linked entry with a known platform is shown |
| Index01.FirstWord | src/templates/template-01/index.tsx:63 | the prefix up to the first space, which is the whole name when there is no space |
| Index01.FirstWordOf | src/templates/template-01/index.tsx:63 | the first word of "first rest" is `first` |
| Index01.GreetsFirstName | src/templates/template-01/index.tsx:63 | the greeting's word of a normalized name is the first name |
| Index01.WorkPeriod | src/templates/template-01/index.tsx:115 | "start - end", with "Present" for a null end |
| Index01.EducationPeriod | src/templates/template-01/index.tsx:143 | "start - end", leaving a trailing " - " when the end is "" |
| Index01.BreakAfterStart | src/templates/template-01/index.tsx:115 | the first " - " of a period is right after a start without " - " |
| Index01.PeriodRoundTrip | src/templates/template-01/index.tsx:115 | the start and the end (or "Present") are read back from the period |
| Index01.ContactHref | src/templates/template-01/index.tsx:278 | "mailto:" plus the email, or "#" for no email |
| Index01.ContactHrefRoundTrip | src/templates/template-01/index.tsx:278 | the email is recovered from the link, and "#" recovers none |
| Index01.WorkCard | src/templates/template-01/index.tsx:104-118 | the card shows the company, the title and the work period |
| Index01.EducationCard | src/templates/template-01/index.tsx:133-145 | the card shows the school, the degree and the education period |
| Index01.IconLinks | src/templates/template-01/index.tsx:205-208 | each link gets the icon of its title |
| Index01.Section | src/templates/template-01/index.tsx:96 | a section iff its list is non-empty, one card per item |
| Index01.Template01 | src/templates/template-01/index.tsx:48-290 | each section iff its list is non-empty, holding one card per item in order (work, education, project and certificate cards, the skills themselves); greeting "Hi, I'm " plus the first word; description and summary; the certificate count; the contact link, which recovers the email |

## Left out

- Fetching: fetching the portfolio and reading the browser location and environment. The server page takes the fetch outcome as a parameter.
- Caching: react-query's caching (`staleTime`, `gcTime`) in the portfolio context. The selectors are modelled over given query state.
- Exceptions in normalization: which profile shapes make `transformUserData` throw is not modelled. A response carries either a well-formed profile or the marker `Malformed`, and the server page turns the marker into "Failed to load portfolio" as its catch does.
- 3D and layout code: three.js and physics in template 04's Card, scroll and layout math, and the event-badge trigonometry in template 03's Hero. These are floating point and rendering.
- Date and URL libraries: year extraction, locale date formatting and the `URL` parser are function parameters. Calendar and URL grammar are not modelled.
- Third-party rendering: markdown and HTML parsing, the Cal.com embed, the GitHub calendar, analytics, theme providers, error boundaries and hydration effects.
- Pure composition components: ProjectDetailsCard, ProjectTechStack, ProjectsList, ProjectDescription, BackButton, ExperienceCard, Header, layout and the route table. They hold no logic beyond an emptiness guard.
- Character model: case conversion is ASCII only. A character is a Unicode scalar value, not a JavaScript UTF-16 code unit. For text outside the Basic Multilingual Plane the engine's lengths differ, and so do `charCodeAt` sums (Cards.GradientOf), the 75- and 85-character cuts and `firstName[0]`.
- Object keys: keys of the template registry, of the navbar's platform table and of template 03's social-icon table (Hero03.IconFor) are ordinary strings. JavaScript prototype keys such as "constructor" or "toString" are not modelled.
- Normalize.BuildSocial: keeps every key of `contact.social` in first-assignment order. `Object.entries` lists integer-like keys such as "1" and "2" first, in ascending order, so link titles "2" then "1" dock as 1, 2 in the navbar and as 2, 1 in Navbar01.SocialLinks.
- Browser effects: image loading, hover and the theme are Boolean, Option or string parameters. Timing and event handling are not modelled.
- Normalize.WorkOf: the fields copied unchanged from the profile are not restated, because the contract only covers the fields the code decides. The same holds for Normalize.SchoolOf, Normalize.ProjectOf and Normalize.HackathonOf.
- Normalize.TransformUserData: states the name only for names without surrounding whitespace. Normalize.DisplayName covers the other cases through trimming.
- Hero04.FormatDescription: the exact text is stated only for no, one or unbroken paragraphs. Hero04.PairsOfText and Hero04.Chunks cover the general case.
- Html.StripTags: the contract gives bounds only. Html.StripPlainPrefix, Html.StripClosedTag and Html.StripOpenTag state what is removed.
- Hero03.HeroView: the event badges' positions are not modelled, because they are trigonometry.

## Findings

| source | as written | input that shows it | evidently intended | confidence | as-written member | corrected member |
|---|---|---|---|---|---|---|
| src/templates/template-04/root-page.tsx:107-110 | `firstName[0] + (lastName?.[0] \|\| "")` indexes the first name even when it is empty; `undefined` becomes the text "undefined" | firstName "" and no last name: the avatar disc shows "undefined" | the first character of each name that is present, leaving the "U" default when neither is | not executed | Root04.InitialsAsWritten | Root04.InitialsOf |
| src/templates/template-04/components/Work.tsx:69 | `alt.replace(" logo", "")` removes the first " logo" anywhere in the alt text | company "A logo B": alt "A logo B logo" gives "A B logo" | remove only the " logo" suffix appended at line 268 | not executed | Work04.CompanyNameAsWritten | Work04.CompanyNameOf |
