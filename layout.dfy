/** The page `download_resume` produces, as a pure function of the resume: each
    section is drawn from the cursor left by the previous one and returns the
    commands it draws together with the new cursor. */
module Layout {
  import opened Resumes
  import opened Strings
  import opened PdfCanvas

  /** Height of a US letter page in points. */
  const PageHeight: int := 792
  /** Every string starts 50 points from the left edge. */
  const Left: int := 50
  /** The cursor starts 50 points below the top edge. */
  const Top: int := PageHeight - 50

  /** Commands drawn by one section and the cursor after it. */
  datatype Step = Step(commands: seq<Command>, y: int)

  // ---------- Line text ----------

  function ContactLine(email: string, phone: string): string
  {
    email + " | " + phone
  }

  /** The end date's text, or `Present` when there is none. */
  function EndText(endDate: Option<string>): string
  {
    match endDate
    case Some(d) => d
    case None => "Present"
  }

  /** `"org | start - end"` with `Present` for a missing end date. */
  function DateLine(org: string, startDate: string, endDate: Option<string>): string
  {
    org + " | " + startDate + " - " + EndText(endDate)
  }

  function SkillLabel(k: Skill): string
  {
    k.name + " (" + k.proficiency + ")"
  }

  function SkillLabels(ks: seq<Skill>): seq<string>
  {
    seq(|ks|, i requires 0 <= i < |ks| => SkillLabel(ks[i]))
  }

  /** All skills on one line, `", "`-separated, in input order. */
  function SkillsLine(ks: seq<Skill>): string
  {
    Join(SkillLabels(ks), ", ")
  }

  /** Name of the downloaded file. */
  function Filename(fullName: string): (name: string)
    ensures |name| == |fullName| + |"_resume.pdf"|
    ensures name[..|fullName|] == fullName
    ensures name[|fullName|..] == "_resume.pdf"
  {
    fullName + "_resume.pdf"
  }

  /** The line under an entry's title. */
  function EntryDateLine(e: Entry): string
  {
    DateLine(e.organization, e.startDate, e.endDate)
  }

  // ---------- Sections ----------

  /** A section title: 14-point bold. */
  function Heading(title: string, y: int): Command
  {
    Draw(HelveticaBold, 14, Left, y, title)
  }

  function Header(r: Resume, y: int): Step
  {
    Step([Draw(HelveticaBold, 24, Left, y, r.fullName),
          Draw(Helvetica, 12, Left, y - 20, ContactLine(r.email, r.phone)),
          Draw(Helvetica, 12, Left, y - 35, r.address)],
         y - 35)
  }

  /** The lines of a text object begun at `y`. */
  function BodyLines(lines: seq<string>, y: int, leading: int): seq<Command>
  {
    if lines == [] then []
    else
      var n := |lines| - 1;
      BodyLines(lines[..n], y, leading) + [Draw(Helvetica, 11, Left, y - n * leading, lines[n])]
  }

  function Summary(summary: string, y: int, leading: int): Step
  {
    if summary == [] then Step([], y)
    else
      var lines := Split(summary, '\n');
      Step([Heading("Professional Summary", y - 30)] + BodyLines(lines, y - 50, leading),
           y - 50 - |lines| * leading - 10)
  }

  /** The entries of a section, the first drawn at `y`. */
  function Entries(es: seq<Entry>, y: int): seq<Command>
  {
    if es == [] then []
    else
      var n := |es| - 1;
      Entries(es[..n], y) +
        [Draw(HelveticaBold, 11, Left, y - 35 * n, es[n].title),
         Draw(Helvetica, 10, Left, y - 35 * n - 15, EntryDateLine(es[n]))]
  }

  /** A titled list of entries, skipped when there are none; `gap` is the
      space left above the title. */
  function Section(title: string, gap: int, es: seq<Entry>, y: int): Step
  {
    if es == [] then Step([], y)
    else Step([Heading(title, y - gap)] + Entries(es, y - gap - 20), y - gap - 20 - 35 * |es|)
  }

  function Skills(ks: seq<Skill>, y: int): Step
  {
    if ks == [] then Step([], y)
    else Step([Heading("Skills", y - 10), Draw(Helvetica, 11, Left, y - 30, SkillsLine(ks))], y - 30)
  }

  /** The whole page, top to bottom. */
  function Page(r: Resume, leading: int): seq<Command>
  {
    var header := Header(r, Top);
    var summary := Summary(r.summary, header.y, leading);
    var education := Section("Education", 20, r.education, summary.y);
    var experience := Section("Experience", 10, r.experience, education.y);
    var skills := Skills(r.skills, experience.y);
    header.commands + summary.commands + education.commands + experience.commands + skills.commands
  }

  // ---------- Observations on a command list ----------

  predicate IsHeading(c: Command)
  {
    c.font == HelveticaBold && c.size == 14
  }

  /** Titles of the section headings, in drawing order. */
  function Headings(cmds: seq<Command>): seq<string>
  {
    if cmds == [] then []
    else (if IsHeading(cmds[0]) then [cmds[0].text] else []) + Headings(cmds[1..])
  }

  /** Every later command is strictly lower on the page. */
  predicate Descending(cmds: seq<Command>)
  {
    forall i, j :: 0 <= i < j < |cmds| ==> cmds[j].y < cmds[i].y
  }

  predicate Below(cmds: seq<Command>, y: int)
  {
    forall i :: 0 <= i < |cmds| ==> cmds[i].y < y
  }

  predicate AtOrAbove(cmds: seq<Command>, y: int)
  {
    forall i :: 0 <= i < |cmds| ==> y <= cmds[i].y
  }

  predicate AtLeftMargin(cmds: seq<Command>)
  {
    forall i :: 0 <= i < |cmds| ==> cmds[i].x == Left
  }
}
