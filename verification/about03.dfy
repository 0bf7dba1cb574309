/**
  Template 03's `About`: the avatar, the name, the description cut to thirty
  words with a "Read more" switch, and the skills capped at five with a
  "+N more" switch. The two switches are the component's state and are
  parameters here.
 */
module About03 {
  import opened Wrappers
  import opened Seqs
  import opened Strings
  import opened Portfolio
  import opened Html

  const DefaultAbout := "I'm a Full Stack web developer and Open Source Contributor. I love building products to solve real-world problems. I'm specialized in building MVPs."
  const DefaultName := "Your Name"
  const DefaultAlt := "Profile"
  const NoImage := "No Image"
  const MaxWords := 30
  const SkillCap := 5

  /** `truncateText`'s result. */
  datatype Cut = Cut(text: string, isTruncated: bool)

  /**
    `truncateText(text, maxWords)`: the text as it is when `split(/\s+/)` gives
    at most `maxWords` pieces, else the first `maxWords` pieces joined by single
    spaces with "..." appended.
   */
  function TruncateWords(text: string, maxWords: nat): (r: Cut)
    ensures r.isTruncated <==> |Words(text)| > maxWords
    ensures !r.isTruncated ==> r.text == text
    ensures r.isTruncated ==> EndsWith(r.text, "...")
  {
    var words := Words(text);
    if |words| <= maxWords then Cut(text, false)
    else Cut(Join(Take(words, maxWords), " ") + "...", true)
  }

  /** The first `n` pieces of a word list, for `n` below its length, are a word list again. */
  lemma TakeWordList(ws: seq<string>, n: nat)
    requires WordList(ws) && 1 <= n < |ws|
    ensures WordList(Take(ws, n))
  {
    var t := Take(ws, n);
    assert forall i :: 0 <= i < |t| ==> t[i] == ws[i];
  }

  /**
    A cut text, without its "...", splits again into exactly the words it kept:
    cutting loses the rest of the text but never merges or splits a word.
   */
  lemma TruncateKeepsWords(text: string, maxWords: nat)
    requires maxWords >= 1
    requires TruncateWords(text, maxWords).isTruncated
    ensures var t := TruncateWords(text, maxWords).text;
            Words(t[..|t| - 3]) == Take(Words(text), maxWords)
  {
    var words := Words(text);
    var kept := Take(words, maxWords);
    TakeWordList(words, maxWords);
    WordsJoin(kept);
    var t := Join(kept, " ") + "...";
    assert t[..|t| - 3] == Join(kept, " ");
  }

  /** The description area: the full description parsed as markup, or the plain cut text. */
  datatype Body = Rich(html: string) | Plain(text: string)

  /** The skills area: the badges shown and whether the "+N more" button is offered, with its count. */
  datatype Skills = Skills(visible: seq<SkillItem>, moreButton: Option<nat>)

  datatype About = About(
    avatar: Option<(string, string)>,
    name: string,
    body: Body,
    readMore: bool,
    skills: Option<Skills>)

  /**
    `About`. `about` and `skillset` fall back to their defaults only when not
    passed; `showFull` and `showAllSkills` are the two switches.
   */
  function AboutView(avatar: Option<string>, name: Option<string>, about: Option<string>,
                     skillset: Option<seq<SkillItem>>, showFull: bool, showAllSkills: bool): (v: About)
    ensures v.avatar.Some? <==> Present(avatar)
    ensures v.avatar.Some? ==> v.avatar.value == (avatar.value, Or(name, DefaultAlt))
    ensures v.name == Or(name, DefaultName)
    ensures showFull ==> v.body == Rich(about.GetOr(DefaultAbout))
    ensures !showFull ==> v.body == Plain(TruncateWords(StripHtml(Some(about.GetOr(DefaultAbout))), MaxWords).text)
    ensures v.readMore <==> !showFull && |Words(StripHtml(Some(about.GetOr(DefaultAbout))))| > MaxWords
    ensures v.skills.Some? <==> |skillset.GetOr([])| > 0
    ensures v.skills.Some? && showAllSkills ==> v.skills.value == Skills(skillset.value, None)
    ensures v.skills.Some? && !showAllSkills ==>
              v.skills.value.visible == Take(skillset.value, SkillCap) &&
              v.skills.value.moreButton == MoreCount(|skillset.value|, SkillCap)
  {
    var text := about.GetOr(DefaultAbout);
    var cut := TruncateWords(StripHtml(Some(text)), MaxWords);
    var skills := skillset.GetOr([]);
    About(
      if Present(avatar) then Some((avatar.value, Or(name, DefaultAlt))) else None,
      Or(name, DefaultName),
      if showFull then Rich(text) else Plain(cut.text),
      cut.isTruncated && !showFull,
      if |skills| > 0 then
        Some(Skills(if showAllSkills then skills else Take(skills, SkillCap),
                    if !showAllSkills then MoreCount(|skills|, SkillCap) else None))
      else None)
  }
}
