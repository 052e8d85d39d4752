/**
 * The resume record every part of the builder reads: the personal details, the
 * summary, the three list sections and the skills, in the shape of the builder's
 * initial state.
 *
 * An optional string field that the source may leave out is the empty string here,
 * and an optional list is the empty list: every use of such a field in the core is a
 * truthiness test or an `|| ''` default, under which "absent" and "empty" agree.
 */
module Resume {

  datatype Personal = Personal(
    fullName: string,
    email: string,
    phone: string,
    location: string,
    github: string,
    linkedin: string,
    portfolio: string)
  {
    /** `personal[field]` */
    function Get(f: PersonalField): string {
      match f
      case FullName => fullName
      case Email => email
      case Phone => phone
      case Location => location
      case GitHub => github
      case LinkedIn => linkedin
      case Portfolio => portfolio
    }

    /** `{ ...personal, [field]: value }` */
    function With(f: PersonalField, v: string): (p: Personal)
      ensures p.Get(f) == v
      ensures forall g :: g != f ==> p.Get(g) == Get(g)
    {
      match f
      case FullName => this.(fullName := v)
      case Email => this.(email := v)
      case Phone => this.(phone := v)
      case Location => this.(location := v)
      case GitHub => this.(github := v)
      case LinkedIn => this.(linkedin := v)
      case Portfolio => this.(portfolio := v)
    }
  }

  /** The names of the seven personal fields. */
  datatype PersonalField = FullName | Email | Phone | Location | GitHub | LinkedIn | Portfolio

  datatype Education = Education(id: int, institution: string, degree: string, year: string)

  datatype Experience = Experience(id: int, role: string, company: string, duration: string, description: string)

  /** `link` is the older single project link, kept for resumes saved before
      `liveUrl` and `githubUrl` existed. */
  datatype Project = Project(
    id: int,
    name: string,
    description: string,
    link: string,
    liveUrl: string,
    githubUrl: string,
    techStack: seq<string>)

  /** The two shapes the skills field takes, and anything else (`null`, `undefined`). */
  datatype Skills =
    | SkillsText(text: string)
    | SkillsByCategory(technical: seq<string>, soft: seq<string>, tools: seq<string>)
    | NoSkills

  datatype ResumeData = ResumeData(
    personal: Personal,
    summary: string,
    education: seq<Education>,
    experience: seq<Experience>,
    projects: seq<Project>,
    skills: Skills)
}
