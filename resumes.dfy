/** The resume aggregate that `download_resume` reads: the header fields of a
    `Resume` and its education, experience and skill records, each collection in
    the order the database returns it. */
module Resumes {

  datatype Option<T> = None | Some(value: T)

  /** One education or experience record: for education the title is the
      degree and the organization the institution, for experience the job
      title and the company. Dates are their `str()` text; an absent end date
      means the course or job is ongoing. */
  datatype Entry = Entry(
    title: string,
    organization: string,
    startDate: string,
    endDate: Option<string>,
    description: string)

  /** One skill with its stored proficiency level. */
  datatype Skill = Skill(name: string, proficiency: string)

  datatype Resume = Resume(
    fullName: string,
    email: string,
    phone: string,
    address: string,
    summary: string,
    education: seq<Entry>,
    experience: seq<Entry>,
    skills: seq<Skill>)
}
