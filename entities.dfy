/**
 * The records the editable sections keep, as they are stored. Every record
 * but a certification carries an `id`, which `Collection.Entry` holds apart
 * from the other fields.
 */
module Entities {
  import opened Collection

  /** A project card (components/projects.tsx). */
  datatype ProjectFields = ProjectFields(
    title: string,
    description: string,
    technologies: seq<string>,
    github: string,
    demo: string,
    image: string)

  type Project = Entry<ProjectFields>

  /** A job (components/experience.tsx). */
  datatype ExperienceFields = ExperienceFields(
    company: string,
    role: string,
    duration: string,
    responsibilities: seq<string>)

  type Experience = Entry<ExperienceFields>

  /** A degree (components/education.tsx). */
  datatype EducationFields = EducationFields(
    degree: string,
    institute: string,
    duration: string,
    highlights: seq<string>)

  type Education = Entry<EducationFields>

  /** The three options of the level select; the type admits no other level. */
  datatype Level = Beginner | Intermediate | Advanced

  /** A technical skill (components/skills.tsx). */
  datatype SkillFields = SkillFields(name: string, level: Level)

  type Skill = Entry<SkillFields>

  /** A certification (components/extras.tsx); it has no id and is addressed by position. */
  datatype Certification = Certification(
    title: string,
    issuer: string,
    year: string,
    image: string,
    website: string)
}
