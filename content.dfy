/** The shapes of the static site content that the system prompt is built
    from (profile, writing and life records). Only the fields the prompt
    builder reads are kept. */
module Content {
  import opened Messages

  // `label` is a keyword here, so the source's `label` fields are `labelText`.
  datatype ProfileLink = ProfileLink(labelText: string, href: string)

  datatype ExperienceItem = ExperienceItem(
    company: string,
    title: string,
    start: string,
    end: string,
    bullets: seq<string>)

  datatype SkillGroup = SkillGroup(labelText: string, items: seq<string>)

  datatype EducationEntry = EducationEntry(school: string, degree: string)

  datatype Profile = Profile(
    name: string,
    title: string,
    location: string,
    yearsExperience: string,
    tagline: string,
    bio: seq<string>,
    highlights: seq<string>,
    links: seq<ProfileLink>,
    experience: seq<ExperienceItem>,
    skills: seq<SkillGroup>,
    education: seq<EducationEntry>)

  /** A featured article; its `note` is optional. */
  datatype WritingItem = WritingItem(title: string, href: string, note: Option<string>)

  /** The article series; here the note is always present. */
  datatype Series = Series(title: string, href: string, note: string)

  datatype Writing = Writing(series: Series, featured: seq<WritingItem>)

  datatype LifeHobby = LifeHobby(title: string, description: string)

  /** The family block; its photo is not read by the prompt builder. */
  datatype Family = Family(headline: string, copy: string)

  datatype Life = Life(intro: string, hobbies: seq<LifeHobby>, family: Family)
}
