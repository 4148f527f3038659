/** The system prompt sent with every chat request. The builder pushes lines
    onto a list, section by section, and joins the list with newlines.
    `PromptLines` is the list the builder accumulates, stated as a function
    of the content records; `BuildSystemPrompt` is the builder itself. */
module SystemPrompt {
  import opened Content
  import opened Text

  const IntroLine := "You are a helpful assistant that answers questions about Harel Coman."

  /** The four introduction lines; the last one carries its own newline. */
  const Introduction: seq<string> := [
    IntroLine,
    "Answer questions about Harel's background, experience, skills, writing, and interests.",
    "When possible, cite specific sources (e.g., mention specific articles, companies, or experiences).",
    "Be helpful, concise, and accurate.\n"
  ]

  const AboutHeading := "## About Harel"
  const ExperienceHeading := "## Professional Experience"
  const SkillsHeading := "## Skills"
  const EducationHeading := "## Education"
  const WritingHeading := "## Writing"
  const InterestsHeading := "## Personal Interests"
  const LinksHeading := "## Links"

  /** The section headings, in the order the builder emits them. */
  const Headings: seq<string> := [
    AboutHeading, ExperienceHeading, SkillsHeading, EducationHeading,
    WritingHeading, InterestsHeading, LinksHeading
  ]

  // ---------------------------------------------------------------------
  // Line templates
  // ---------------------------------------------------------------------

  function Bullet(s: string): string { "- " + s }

  function ExperienceHeader(e: ExperienceItem): string { "\n" + e.title + " at " + e.company }

  function ExperiencePeriod(e: ExperienceItem): string { e.start + " - " + e.end }

  function SkillGroupHeader(g: SkillGroup): string { "\n" + g.labelText + ":" }

  function EducationLine(e: EducationEntry): string { e.degree + " from " + e.school }

  function ArticleTitleLine(a: WritingItem): string { "\n- " + a.title }

  function ArticleUrlLine(a: WritingItem): string { "  URL: " + a.href }

  function HobbyLine(h: LifeHobby): string { "- " + h.title + ": " + h.description }

  function LinkLine(k: ProfileLink): string { "- " + k.labelText + ": " + k.href }

  /** `if (article.note)`: the note is present and is not the empty string. */
  predicate HasNote(a: WritingItem) {
    a.note.Some? && a.note.value != ""
  }

  // ---------------------------------------------------------------------
  // The accumulated list, as a function of the content
  // ---------------------------------------------------------------------

  /** One line per element, in order (a `forEach` that pushes `f(x)`). */
  function MapLines<T>(xs: seq<T>, f: T -> string): seq<string> {
    seq(|xs|, i requires 0 <= i < |xs| => f(xs[i]))
  }

  /** The blocks of lines of all elements, in order (a `forEach` whose body
      pushes several lines). */
  function FlatMap<T>(xs: seq<T>, f: T -> seq<string>): seq<string>
    decreases |xs|
  {
    if |xs| == 0 then [] else FlatMap(xs[..|xs| - 1], f) + f(xs[|xs| - 1])
  }

  function ExperienceItemLines(e: ExperienceItem): seq<string> {
    [ExperienceHeader(e), ExperiencePeriod(e)] + MapLines(e.bullets, Bullet)
  }

  function SkillGroupLines(g: SkillGroup): seq<string> {
    [SkillGroupHeader(g)] + MapLines(g.items, Bullet)
  }

  function ArticleLines(a: WritingItem): seq<string> {
    [ArticleTitleLine(a)] + (if HasNote(a) then ["  " + a.note.value] else []) + [ArticleUrlLine(a)]
  }

  function AboutLines(p: Profile): seq<string> {
    AboutHead(p)
    + MapLines(p.bio, Bullet) + ["", "Key Focus Areas:"]
    + MapLines(p.highlights, Bullet) + [""]
  }

  function ExperienceLines(p: Profile): seq<string> {
    [ExperienceHeading] + FlatMap(p.experience, ExperienceItemLines) + [""]
  }

  function SkillsLines(p: Profile): seq<string> {
    [SkillsHeading] + FlatMap(p.skills, SkillGroupLines) + [""]
  }

  function EducationLines(p: Profile): seq<string> {
    [EducationHeading] + MapLines(p.education, EducationLine) + [""]
  }

  function WritingLines(w: Writing): seq<string> {
    [WritingHeading,
     "\nSeries: " + w.series.title,
     "Description: " + w.series.note,
     "URL: " + w.series.href + "\n",
     "Featured Articles:"]
    + FlatMap(w.featured, ArticleLines) + [""]
  }

  function InterestsLines(l: Life): seq<string> {
    [InterestsHeading, "\n" + l.intro + "\n", "Hobbies:"]
    + MapLines(l.hobbies, HobbyLine) + ["", "Family: " + l.family.copy, ""]
  }

  function LinksLines(p: Profile): seq<string> {
    [LinksHeading] + MapLines(p.links, LinkLine)
  }

  /** The introduction and the seven sections, in the order they are built. */
  function Sections(p: Profile, w: Writing, l: Life): seq<seq<string>> {
    [Introduction, AboutLines(p), ExperienceLines(p), SkillsLines(p),
     EducationLines(p), WritingLines(w), InterestsLines(l), LinksLines(p)]
  }

  /** A section is already a list of lines: flattening the sections is
      `FlatMap` with this identity. */
  function SectionLines(s: seq<string>): seq<string> { s }

  /** Every line the builder pushes, in order. */
  function PromptLines(p: Profile, w: Writing, l: Life): seq<string> {
    FlatMap(Sections(p, w, l), SectionLines)
  }

  /** The prompt text: the lines joined with newlines. */
  function Prompt(p: Profile, w: Writing, l: Life): string {
    Join(PromptLines(p, w, l), "\n")
  }

  // ---------------------------------------------------------------------
  // Where each line lands
  // ---------------------------------------------------------------------

  lemma {:induction false} FlatMapAppend<T>(xs: seq<T>, ys: seq<T>, f: T -> seq<string>)
    ensures FlatMap(xs + ys, f) == FlatMap(xs, f) + FlatMap(ys, f)
    decreases |ys|
  {
    if |ys| == 0 {
      assert xs + ys == xs;
    } else {
      var n := |ys| - 1;
      assert (xs + ys)[..|xs + ys| - 1] == xs + ys[..n];
      FlatMapAppend(xs, ys[..n], f);
    }
  }

  lemma FlatMapSingleton<T>(x: T, f: T -> seq<string>)
    ensures FlatMap([x], f) == f(x)
  {
    assert [x][..0] == [];
  }

  /** The block of element `k` appears whole, after the blocks of the
      elements before it and before the blocks of the elements after it. */
  lemma {:induction false} FlatMapAt<T>(xs: seq<T>, k: nat, f: T -> seq<string>)
    requires k < |xs|
    ensures FlatMap(xs, f) == FlatMap(xs[..k], f) + f(xs[k]) + FlatMap(xs[k + 1..], f)
  {
    var before, item, after := xs[..k], [xs[k]], xs[k + 1..];
    assert xs == before + item + after;
    calc {
      FlatMap(xs, f);
      FlatMap(before + item + after, f);
      { FlatMapAppend(before + item, after, f); }
      FlatMap(before + item, f) + FlatMap(after, f);
      { FlatMapAppend(before, item, f); }
      FlatMap(before, f) + FlatMap(item, f) + FlatMap(after, f);
      { FlatMapSingleton(xs[k], f); }
      FlatMap(before, f) + f(xs[k]) + FlatMap(after, f);
    }
  }

  /** The number of lines pushed before section `j` (0 is the introduction,
      1 to 7 are the headed sections): the index of its first line. */
  function SectionStart(p: Profile, w: Writing, l: Life, j: nat): nat
    requires j < 8
  {
    |FlatMap(Sections(p, w, l)[..j], SectionLines)|
  }

  /** Inside `before + block + after`, the block's lines sit right after `before`. */
  lemma BlockAt(lines: seq<string>, before: seq<string>, block: seq<string>, after: seq<string>, i: nat)
    requires lines == before + block + after
    requires i < |block|
    ensures |before| + i < |lines| && lines[|before| + i] == block[i]
  {
  }

  /** Line `i` of section `j` is line `SectionStart(p, w, l, j) + i` of the prompt. */
  lemma SectionLineAt(p: Profile, w: Writing, l: Life, j: nat, i: nat)
    requires j < 8 && i < |Sections(p, w, l)[j]|
    ensures SectionStart(p, w, l, j) + i < |PromptLines(p, w, l)|
    ensures PromptLines(p, w, l)[SectionStart(p, w, l, j) + i] == Sections(p, w, l)[j][i]
  {
    var s := Sections(p, w, l);
    FlatMapAt(s, j, SectionLines);
    BlockAt(PromptLines(p, w, l), FlatMap(s[..j], SectionLines), s[j], FlatMap(s[j + 1..], SectionLines), i);
  }

  /** The prompt opens with the fixed introduction line, both as the first
      pushed line and as the start of the joined text. */
  lemma PromptStartsWithIntroduction(p: Profile, w: Writing, l: Life)
    ensures PromptLines(p, w, l)[0] == IntroLine
    ensures StartsWith(Prompt(p, w, l), IntroLine)
  {
    assert Sections(p, w, l)[..0] == [];
    SectionLineAt(p, w, l, 0, 0);
    JoinStartsWith(PromptLines(p, w, l), "\n");
  }

  /** The seven headings appear, each on its own line, at strictly
      increasing positions, in the fixed order. */
  lemma HeadingsInOrder(p: Profile, w: Writing, l: Life)
    ensures forall j :: 1 <= j < 8 ==>
      SectionStart(p, w, l, j) < |PromptLines(p, w, l)|
      && PromptLines(p, w, l)[SectionStart(p, w, l, j)] == Headings[j - 1]
    ensures forall j :: 1 <= j < 7 ==> SectionStart(p, w, l, j) < SectionStart(p, w, l, j + 1)
  {
    var s := Sections(p, w, l);
    forall j | 1 <= j < 8
      ensures SectionStart(p, w, l, j) < |PromptLines(p, w, l)|
      ensures PromptLines(p, w, l)[SectionStart(p, w, l, j)] == Headings[j - 1]
    {
      SectionLineAt(p, w, l, j, 0);
    }
    forall j | 1 <= j < 7
      ensures SectionStart(p, w, l, j) < SectionStart(p, w, l, j + 1)
    {
      FlatMapSnoc(s, j, SectionLines);
      assert |s[j]| > 0;
    }
  }

  /** The four identity lines and the "Bio:" line of the "About" section,
      as one block after its heading. */
  function AboutHead(p: Profile): seq<string> {
    [AboutHeading, "Name: " + p.name, "Title: " + p.title, "Location: " + p.location,
     "Experience: " + p.yearsExperience + "\n", "Tagline: " + p.tagline + "\n", "Bio:"]
  }

  /** The "About" section opens with the name line; the bio list is announced
      by "Bio:". */
  lemma AboutSectionHead(p: Profile, w: Writing, l: Life)
    ensures var lines, o := PromptLines(p, w, l), SectionStart(p, w, l, 1);
      && o + 6 < |lines|
      && lines[o + 1] == "Name: " + p.name
      && lines[o + 6] == "Bio:"
  {
    var rest := MapLines(p.bio, Bullet) + ["", "Key Focus Areas:"] + MapLines(p.highlights, Bullet) + [""];
    assert Sections(p, w, l)[1] == [] + AboutHead(p) + rest;
    SectionBlockLine(p, w, l, 1, [], AboutHead(p), rest, 1);
    SectionBlockLine(p, w, l, 1, [], AboutHead(p), rest, 6);
  }

  /** Each bio paragraph gets exactly one bullet line, in order, right after
      "Bio:", and the list is closed by an empty line. */
  lemma AboutSectionBio(p: Profile, w: Writing, l: Life)
    ensures var lines, b := PromptLines(p, w, l), SectionStart(p, w, l, 1) + 7;
      && b + |p.bio| < |lines|
      && (forall i :: 0 <= i < |p.bio| ==> lines[b + i] == Bullet(p.bio[i]))
      && lines[b + |p.bio|] == ""
  {
    var bio := MapLines(p.bio, Bullet);
    var rest := ["", "Key Focus Areas:"] + MapLines(p.highlights, Bullet) + [""];
    assert Sections(p, w, l)[1] == AboutHead(p) + bio + rest;
    forall i | 0 <= i < |p.bio|
      ensures SectionStart(p, w, l, 1) + 7 + i < |PromptLines(p, w, l)|
      ensures PromptLines(p, w, l)[SectionStart(p, w, l, 1) + 7 + i] == Bullet(p.bio[i])
    {
      SectionBlockLine(p, w, l, 1, AboutHead(p), bio, rest, i);
    }
    SectionBlockLine(p, w, l, 1, AboutHead(p) + bio, rest, [], 0);
  }

  /** Each highlight gets exactly one bullet line, in order, after
      "Key Focus Areas:", and the list is closed by an empty line. */
  lemma AboutSectionHighlights(p: Profile, w: Writing, l: Life)
    ensures var lines, h := PromptLines(p, w, l), SectionStart(p, w, l, 1) + 9 + |p.bio|;
      && h + |p.highlights| < |lines|
      && lines[h - 1] == "Key Focus Areas:"
      && (forall i :: 0 <= i < |p.highlights| ==> lines[h + i] == Bullet(p.highlights[i]))
      && lines[h + |p.highlights|] == ""
  {
    var pre := AboutHead(p) + MapLines(p.bio, Bullet) + ["", "Key Focus Areas:"];
    var highlights := MapLines(p.highlights, Bullet);
    assert Sections(p, w, l)[1] == pre + highlights + [""];
    SectionBlockLine(p, w, l, 1, [], pre, highlights + [""], |pre| - 1);
    forall i | 0 <= i < |p.highlights|
      ensures SectionStart(p, w, l, 1) + 9 + |p.bio| + i < |PromptLines(p, w, l)|
      ensures PromptLines(p, w, l)[SectionStart(p, w, l, 1) + 9 + |p.bio| + i] == Bullet(p.highlights[i])
    {
      SectionBlockLine(p, w, l, 1, pre, highlights, [""], i);
    }
    SectionBlockLine(p, w, l, 1, pre + highlights, [""], [], 0);
  }



  /** A line of a block inside section `j` sits in the prompt at the section's
      start plus the block's offset inside the section. */
  lemma SectionBlockLine(p: Profile, w: Writing, l: Life, j: nat,
                         pre: seq<string>, block: seq<string>, post: seq<string>, i: nat)
    requires j < 8 && Sections(p, w, l)[j] == pre + block + post
    requires i < |block|
    ensures SectionStart(p, w, l, j) + |pre| + i < |PromptLines(p, w, l)|
    ensures PromptLines(p, w, l)[SectionStart(p, w, l, j) + |pre| + i] == block[i]
  {
    BlockAt(Sections(p, w, l)[j], pre, block, post, i);
    SectionLineAt(p, w, l, j, |pre| + i);
  }

  /** Inside `[heading] + FlatMap(xs, f) + [""]`, the block of element `k`
      follows the heading and the blocks before it. */
  lemma {:induction false} ItemInSection<T>(heading: seq<string>, xs: seq<T>, f: T -> seq<string>, k: nat)
    requires k < |xs|
    ensures heading + FlatMap(xs, f) + [""]
      == (heading + FlatMap(xs[..k], f)) + f(xs[k]) + (FlatMap(xs[k + 1..], f) + [""])
  {
    var before, item, after := FlatMap(xs[..k], f), f(xs[k]), FlatMap(xs[k + 1..], f);
    FlatMapAt(xs, k, f);
    SeqAssoc(heading, before, item, after, [""]);
  }

  /** Refines `ItemInSection` when element `k`'s block is itself `a + b + c`:
      the part `b` sits after the heading, the blocks before `k` and `a`. */
  lemma {:induction false} ItemPartInSection<T>(heading: seq<string>, xs: seq<T>, f: T -> seq<string>, k: nat,
                                                a: seq<string>, b: seq<string>, c: seq<string>)
    requires k < |xs| && f(xs[k]) == a + b + c
    ensures heading + FlatMap(xs, f) + [""]
      == (heading + FlatMap(xs[..k], f) + a) + b + (c + FlatMap(xs[k + 1..], f) + [""])
  {
    ItemInSection(heading, xs, f, k);
  }

  lemma SeqAssoc(a: seq<string>, b: seq<string>, c: seq<string>, d: seq<string>, e: seq<string>)
    ensures a + (b + c + d) + e == (a + b) + c + (d + e)
  {
  }

  /** Where item `k` of an `ItemInSection` list starts inside the prompt. */
  function ItemStart<T>(p: Profile, w: Writing, l: Life, j: nat, heading: nat, xs: seq<T>, f: T -> seq<string>, k: nat): nat
    requires j < 8 && k <= |xs|
  {
    SectionStart(p, w, l, j) + heading + |FlatMap(xs[..k], f)|
  }

  /** Each experience item contributes its header line and its period line,
      followed by as many lines as it has bullets; so an item without
      bullets contributes exactly its two header lines. */
  lemma ExperienceItemHeaderAt(p: Profile, w: Writing, l: Life, k: nat)
    requires k < |p.experience|
    ensures var lines, e := PromptLines(p, w, l), p.experience[k];
      var o := ItemStart(p, w, l, 2, 1, p.experience, ExperienceItemLines, k);
      && o + 2 + |e.bullets| <= |lines|
      && lines[o] == ExperienceHeader(e)
      && lines[o + 1] == ExperiencePeriod(e)
      && ItemStart(p, w, l, 2, 1, p.experience, ExperienceItemLines, k + 1) == o + 2 + |e.bullets|
  {
    var exps, e := p.experience, p.experience[k];
    var block := ExperienceItemLines(e);
    var pre := [ExperienceHeading] + FlatMap(exps[..k], ExperienceItemLines);
    var post := FlatMap(exps[k + 1..], ExperienceItemLines) + [""];
    ItemInSection([ExperienceHeading], exps, ExperienceItemLines, k);
    assert Sections(p, w, l)[2] == pre + block + post;
    FlatMapSnoc(exps, k, ExperienceItemLines);
    SectionBlockLine(p, w, l, 2, pre, block, post, 0);
    SectionBlockLine(p, w, l, 2, pre, block, post, 1);
    SectionBlockLine(p, w, l, 2, pre, block, post, |block| - 1);
  }

  /** The bullet lines of experience item `k` follow its two header lines,
      one per bullet, in order. */
  lemma ExperienceItemBulletsAt(p: Profile, w: Writing, l: Life, k: nat)
    requires k < |p.experience|
    ensures var lines, e := PromptLines(p, w, l), p.experience[k];
      var o := ItemStart(p, w, l, 2, 1, p.experience, ExperienceItemLines, k) + 2;
      && o + |e.bullets| <= |lines|
      && forall j :: 0 <= j < |e.bullets| ==> lines[o + j] == Bullet(e.bullets[j])
  {
    var exps, e := p.experience, p.experience[k];
    var pre := [ExperienceHeading] + FlatMap(exps[..k], ExperienceItemLines) + [ExperienceHeader(e), ExperiencePeriod(e)];
    var bullets := MapLines(e.bullets, Bullet);
    var post := [] + FlatMap(exps[k + 1..], ExperienceItemLines) + [""];
    ItemPartInSection([ExperienceHeading], exps, ExperienceItemLines, k,
                      [ExperienceHeader(e), ExperiencePeriod(e)], bullets, []);
    assert Sections(p, w, l)[2] == pre + bullets + post;
    SectionBlockLine(p, w, l, 2, pre + bullets, post, [], |post| - 1);
    forall j | 0 <= j < |e.bullets|
      ensures SectionStart(p, w, l, 2) + |pre| + j < |PromptLines(p, w, l)|
      ensures PromptLines(p, w, l)[SectionStart(p, w, l, 2) + |pre| + j] == Bullet(e.bullets[j])
    {
      SectionBlockLine(p, w, l, 2, pre, bullets, post, j);
    }
  }

  /** Each skill group contributes its label line followed by as many lines
      as it has items. */
  lemma SkillGroupLabelAt(p: Profile, w: Writing, l: Life, k: nat)
    requires k < |p.skills|
    ensures var lines, g := PromptLines(p, w, l), p.skills[k];
      var o := ItemStart(p, w, l, 3, 1, p.skills, SkillGroupLines, k);
      && o + 1 + |g.items| <= |lines|
      && lines[o] == SkillGroupHeader(g)
      && ItemStart(p, w, l, 3, 1, p.skills, SkillGroupLines, k + 1) == o + 1 + |g.items|
  {
    var groups, g := p.skills, p.skills[k];
    var block := SkillGroupLines(g);
    var pre := [SkillsHeading] + FlatMap(groups[..k], SkillGroupLines);
    var post := FlatMap(groups[k + 1..], SkillGroupLines) + [""];
    ItemInSection([SkillsHeading], groups, SkillGroupLines, k);
    assert Sections(p, w, l)[3] == pre + block + post;
    FlatMapSnoc(groups, k, SkillGroupLines);
    SectionBlockLine(p, w, l, 3, pre, block, post, 0);
    SectionBlockLine(p, w, l, 3, pre, block, post, |block| - 1);
  }

  /** The item lines of skill group `k` follow its label line, one per item,
      in order. */
  lemma SkillGroupItemsAt(p: Profile, w: Writing, l: Life, k: nat)
    requires k < |p.skills|
    ensures var lines, g := PromptLines(p, w, l), p.skills[k];
      var o := ItemStart(p, w, l, 3, 1, p.skills, SkillGroupLines, k) + 1;
      && o + |g.items| <= |lines|
      && forall j :: 0 <= j < |g.items| ==> lines[o + j] == Bullet(g.items[j])
  {
    var groups, g := p.skills, p.skills[k];
    var pre := [SkillsHeading] + FlatMap(groups[..k], SkillGroupLines) + [SkillGroupHeader(g)];
    var items := MapLines(g.items, Bullet);
    var post := [] + FlatMap(groups[k + 1..], SkillGroupLines) + [""];
    ItemPartInSection([SkillsHeading], groups, SkillGroupLines, k, [SkillGroupHeader(g)], items, []);
    assert Sections(p, w, l)[3] == pre + items + post;
    SectionBlockLine(p, w, l, 3, pre + items, post, [], |post| - 1);
    forall j | 0 <= j < |g.items|
      ensures SectionStart(p, w, l, 3) + |pre| + j < |PromptLines(p, w, l)|
      ensures PromptLines(p, w, l)[SectionStart(p, w, l, 3) + |pre| + j] == Bullet(g.items[j])
    {
      SectionBlockLine(p, w, l, 3, pre, items, post, j);
    }
  }

  /** One "degree from school" line per education entry, in order. */
  lemma EducationEntries(p: Profile, w: Writing, l: Life)
    ensures var lines, o := PromptLines(p, w, l), SectionStart(p, w, l, 4) + 1;
      && o + |p.education| < |lines|
      && (forall i :: 0 <= i < |p.education| ==> lines[o + i] == EducationLine(p.education[i]))
      && lines[o + |p.education|] == ""
  {
    SectionLineAt(p, w, l, 4, 1 + |p.education|);
    forall i | 0 <= i < |p.education|
      ensures PromptLines(p, w, l)[SectionStart(p, w, l, 4) + 1 + i] == EducationLine(p.education[i])
    {
      SectionLineAt(p, w, l, 4, 1 + i);
    }
  }

  /** Each featured article contributes its title line, then its note line
      exactly when the note is present and non-empty, then its URL line. */
  lemma ArticleAt(p: Profile, w: Writing, l: Life, k: nat)
    requires k < |w.featured|
    ensures var lines, a := PromptLines(p, w, l), w.featured[k];
      var o := SectionStart(p, w, l, 5) + 5 + |FlatMap(w.featured[..k], ArticleLines)|;
      var n := if HasNote(a) then 3 else 2;
      && o + n <= |lines|
      && lines[o] == ArticleTitleLine(a)
      && (HasNote(a) ==> lines[o + 1] == "  " + a.note.value)
      && lines[o + n - 1] == ArticleUrlLine(a)
      && |FlatMap(w.featured[..k + 1], ArticleLines)| == |FlatMap(w.featured[..k], ArticleLines)| + n
  {
    var articles, a := w.featured, w.featured[k];
    var block := ArticleLines(a);
    var series := [WritingHeading, "\nSeries: " + w.series.title, "Description: " + w.series.note,
                   "URL: " + w.series.href + "\n", "Featured Articles:"];
    var pre := series + FlatMap(articles[..k], ArticleLines);
    var post := FlatMap(articles[k + 1..], ArticleLines) + [""];
    ItemInSection(series, articles, ArticleLines, k);
    assert Sections(p, w, l)[5] == pre + block + post;
    FlatMapSnoc(articles, k, ArticleLines);
    SectionBlockLine(p, w, l, 5, pre, block, post, 0);
    SectionBlockLine(p, w, l, 5, pre, block, post, |block| - 1);
    if HasNote(a) {
      SectionBlockLine(p, w, l, 5, pre, block, post, 1);
    }
  }

  /** One line per hobby, in order, then an empty line and the family line. */
  lemma Hobbies(p: Profile, w: Writing, l: Life)
    ensures var lines, o := PromptLines(p, w, l), SectionStart(p, w, l, 6) + 3;
      && o + |l.hobbies| + 1 < |lines|
      && lines[o - 1] == "Hobbies:"
      && (forall i :: 0 <= i < |l.hobbies| ==> lines[o + i] == HobbyLine(l.hobbies[i]))
      && lines[o + |l.hobbies|] == ""
      && lines[o + |l.hobbies| + 1] == "Family: " + l.family.copy
  {
    SectionLineAt(p, w, l, 6, 2);
    SectionLineAt(p, w, l, 6, 3 + |l.hobbies|);
    SectionLineAt(p, w, l, 6, 4 + |l.hobbies|);
    forall i | 0 <= i < |l.hobbies|
      ensures PromptLines(p, w, l)[SectionStart(p, w, l, 6) + 3 + i] == HobbyLine(l.hobbies[i])
    {
      SectionLineAt(p, w, l, 6, 3 + i);
    }
  }

  /** The prompt ends with the "Links" heading followed by one line per
      profile link, in order; the joined text ends with the last of them. */
  lemma PromptEndsWithLinks(p: Profile, w: Writing, l: Life)
    ensures var lines, n := PromptLines(p, w, l), |p.links|;
      && n < |lines|
      && lines[|lines| - n - 1..] == [LinksHeading] + MapLines(p.links, LinkLine)
      && EndsWith(Prompt(p, w, l), if n == 0 then LinksHeading else LinkLine(p.links[n - 1]))
  {
    var s, lines, n := Sections(p, w, l), PromptLines(p, w, l), |p.links|;
    var links := [LinksHeading] + MapLines(p.links, LinkLine);
    FlatMapSnoc(s, 7, SectionLines);
    assert s[..8] == s;
    assert lines == FlatMap(s[..7], SectionLines) + links;
    assert lines[|lines| - n - 1..] == links;
    assert lines[|lines| - 1] == links[n];
    JoinEndsWith(lines, "\n");
  }

  // ---------------------------------------------------------------------
  // The builder
  // ---------------------------------------------------------------------

  lemma MapLinesSnoc<T>(xs: seq<T>, i: nat, f: T -> string)
    requires i < |xs|
    ensures MapLines(xs[..i + 1], f) == MapLines(xs[..i], f) + [f(xs[i])]
  {
  }

  lemma FlatMapSnoc<T>(xs: seq<T>, i: nat, f: T -> seq<string>)
    requires i < |xs|
    ensures FlatMap(xs[..i + 1], f) == FlatMap(xs[..i], f) + f(xs[i])
  {
    assert xs[..i + 1][..i] == xs[..i];
  }

  /** `xs.forEach(x => sections.push(f(x)))`. */
  method PushEach<T>(sections: seq<string>, xs: seq<T>, f: T -> string) returns (r: seq<string>)
    ensures r == sections + MapLines(xs, f)
  {
    r := sections;
    var i := 0;
    while i < |xs|
      invariant 0 <= i <= |xs|
      invariant r == sections + MapLines(xs[..i], f)
    {
      MapLinesSnoc(xs, i, f);
      r := r + [f(xs[i])];
      i := i + 1;
    }
    assert xs[..|xs|] == xs;
  }

  /** The "About" section: identity lines, then the bio and the highlights. */
  method PushAbout(sections: seq<string>, p: Profile) returns (r: seq<string>)
    ensures r == sections + AboutLines(p)
  {
    r := sections + [AboutHeading];
    r := r + ["Name: " + p.name];
    r := r + ["Title: " + p.title];
    r := r + ["Location: " + p.location];
    r := r + ["Experience: " + p.yearsExperience + "\n"];
    r := r + ["Tagline: " + p.tagline + "\n"];
    r := r + ["Bio:"];
    r := PushEach(r, p.bio, Bullet);
    r := r + [""];
    r := r + ["Key Focus Areas:"];
    r := PushEach(r, p.highlights, Bullet);
    r := r + [""];
  }

  /** One experience item: its header, its period and its bullets (the
      bullet loop runs only when there are bullets). */
  method PushExperienceItem(sections: seq<string>, e: ExperienceItem) returns (r: seq<string>)
    ensures r == sections + ExperienceItemLines(e)
  {
    r := sections + [ExperienceHeader(e)];
    r := r + [ExperiencePeriod(e)];
    if |e.bullets| > 0 {
      r := PushEach(r, e.bullets, Bullet);
    }
  }

  /** The "Professional Experience" section: every item, then an empty line. */
  method PushExperience(sections: seq<string>, p: Profile) returns (r: seq<string>)
    ensures r == sections + ExperienceLines(p)
  {
    r := sections + [ExperienceHeading];
    ghost var before := r;
    var exps := p.experience;
    var i := 0;
    while i < |exps|
      invariant 0 <= i <= |exps|
      invariant r == before + FlatMap(exps[..i], ExperienceItemLines)
    {
      r := PushExperienceItem(r, exps[i]);
      FlatMapSnoc(exps, i, ExperienceItemLines);
      i := i + 1;
    }
    assert exps[..|exps|] == exps;
    r := r + [""];
  }

  /** One skill group: its label line and one line per item. */
  method PushSkillGroup(sections: seq<string>, g: SkillGroup) returns (r: seq<string>)
    ensures r == sections + SkillGroupLines(g)
  {
    r := sections + [SkillGroupHeader(g)];
    r := PushEach(r, g.items, Bullet);
  }

  /** The "Skills" section: every group, then an empty line. */
  method PushSkills(sections: seq<string>, p: Profile) returns (r: seq<string>)
    ensures r == sections + SkillsLines(p)
  {
    r := sections + [SkillsHeading];
    ghost var before := r;
    var groups := p.skills;
    var i := 0;
    while i < |groups|
      invariant 0 <= i <= |groups|
      invariant r == before + FlatMap(groups[..i], SkillGroupLines)
    {
      r := PushSkillGroup(r, groups[i]);
      FlatMapSnoc(groups, i, SkillGroupLines);
      i := i + 1;
    }
    assert groups[..|groups|] == groups;
    r := r + [""];
  }

  /** The "Education" section: one line per entry. */
  method PushEducation(sections: seq<string>, p: Profile) returns (r: seq<string>)
    ensures r == sections + EducationLines(p)
  {
    r := sections + [EducationHeading];
    r := PushEach(r, p.education, EducationLine);
    r := r + [""];
  }

  /** One featured article: its title, its note when it has a non-empty
      one, and its URL. */
  method PushArticle(sections: seq<string>, a: WritingItem) returns (r: seq<string>)
    ensures r == sections + ArticleLines(a)
  {
    r := sections + [ArticleTitleLine(a)];
    if a.note.Some? && a.note.value != "" {
      r := r + ["  " + a.note.value];
    }
    r := r + [ArticleUrlLine(a)];
  }

  /** The "Writing" section: the series, then every featured article, then
      an empty line. */
  method PushWriting(sections: seq<string>, w: Writing) returns (r: seq<string>)
    ensures r == sections + WritingLines(w)
  {
    r := sections + [WritingHeading];
    r := r + ["\nSeries: " + w.series.title];
    r := r + ["Description: " + w.series.note];
    r := r + ["URL: " + w.series.href + "\n"];
    r := r + ["Featured Articles:"];
    ghost var before := r;
    var articles := w.featured;
    var i := 0;
    while i < |articles|
      invariant 0 <= i <= |articles|
      invariant r == before + FlatMap(articles[..i], ArticleLines)
    {
      r := PushArticle(r, articles[i]);
      FlatMapSnoc(articles, i, ArticleLines);
      i := i + 1;
    }
    assert articles[..|articles|] == articles;
    r := r + [""];
  }

  /** The "Personal Interests" section: intro, hobbies and the family line. */
  method PushInterests(sections: seq<string>, l: Life) returns (r: seq<string>)
    ensures r == sections + InterestsLines(l)
  {
    r := sections + [InterestsHeading];
    r := r + ["\n" + l.intro + "\n"];
    r := r + ["Hobbies:"];
    r := PushEach(r, l.hobbies, HobbyLine);
    r := r + [""];
    r := r + ["Family: " + l.family.copy];
    r := r + [""];
  }

  /** The "Links" section, which closes the prompt. */
  method PushLinks(sections: seq<string>, p: Profile) returns (r: seq<string>)
    ensures r == sections + LinksLines(p)
  {
    r := sections + [LinksHeading];
    r := PushEach(r, p.links, LinkLine);
  }

  /** The pushed lines are the sections one after the other. */
  lemma PromptLinesConcat(p: Profile, w: Writing, l: Life)
    ensures PromptLines(p, w, l)
      == Introduction + AboutLines(p) + ExperienceLines(p) + SkillsLines(p)
         + EducationLines(p) + WritingLines(w) + InterestsLines(l) + LinksLines(p)
  {
    var s := Sections(p, w, l);
    var acc: seq<string> := [];
    assert s[..0] == [];
    FlatMapSnoc(s, 0, SectionLines);
    acc := Introduction;
    assert FlatMap(s[..1], SectionLines) == acc;
    FlatMapSnoc(s, 1, SectionLines);
    acc := acc + AboutLines(p);
    assert FlatMap(s[..2], SectionLines) == acc;
    FlatMapSnoc(s, 2, SectionLines);
    acc := acc + ExperienceLines(p);
    assert FlatMap(s[..3], SectionLines) == acc;
    FlatMapSnoc(s, 3, SectionLines);
    acc := acc + SkillsLines(p);
    assert FlatMap(s[..4], SectionLines) == acc;
    FlatMapSnoc(s, 4, SectionLines);
    acc := acc + EducationLines(p);
    assert FlatMap(s[..5], SectionLines) == acc;
    FlatMapSnoc(s, 5, SectionLines);
    acc := acc + WritingLines(w);
    assert FlatMap(s[..6], SectionLines) == acc;
    FlatMapSnoc(s, 6, SectionLines);
    acc := acc + InterestsLines(l);
    assert FlatMap(s[..7], SectionLines) == acc;
    FlatMapSnoc(s, 7, SectionLines);
    acc := acc + LinksLines(p);
    assert s[..8] == s;
  }

  /** `buildSystemPrompt`: accumulates every line in order and joins them
      with newlines. */
  method BuildSystemPrompt(p: Profile, w: Writing, l: Life) returns (prompt: string)
    ensures prompt == Join(PromptLines(p, w, l), "\n")
  {
    var sections: seq<string> := [];
    sections := sections + [Introduction[0]];
    sections := sections + [Introduction[1]];
    sections := sections + [Introduction[2]];
    sections := sections + [Introduction[3]];
    assert sections == Introduction;
    sections := PushAbout(sections, p);
    sections := PushExperience(sections, p);
    sections := PushSkills(sections, p);
    sections := PushEducation(sections, p);
    sections := PushWriting(sections, w);
    sections := PushInterests(sections, l);
    sections := PushLinks(sections, p);
    PromptLinesConcat(p, w, l);
    prompt := Join(sections, "\n");
  }
}
