# Resume PDF download, modelled in Dafny

`download_resume` (resumes/views.py) renders one resume onto a letter-size
PDF page with reportlab. It keeps a single vertical cursor `y` that starts
50 points below the top of the page and only moves down. It draws five
parts: the header (name, contact line, address), an optional professional
summary, optional Education and Experience sections, and an optional
one-line Skills section. Then it closes the page and offers the document as
`<full name>_resume.pdf`.

The project models this as follows:

- `Resumes`: the resume aggregate. Education and experience records share
  one `Entry` shape (title, organization, start date, optional end date,
  description). The renderer uses both kinds only through those fields.
- `PdfCanvas`: the part of reportlab the view uses, as classes. The
  `Canvas` keeps the open page as a list of draw commands (font, size, x, y,
  text) and the closed pages. The `TextObject` lowers its own cursor by its
  leading on every `textLine`.
- `Layout`: the page as a pure function `Page(r, leading)`. Each section is
  a function from the incoming cursor to its commands and the outgoing
  cursor.
- `Strings`: Python's `str.split` on one character and `str.join`, with
  their round trips and the position of every part in a join.
- `LayoutFacts`: what the page looks like. This covers where each line is
  drawn and what it says, which section headings appear and in which
  order, how many commands there are, and that every command sits at the
  left margin strictly below the previous one.
- `Views`: the view itself, one method per section. Each method draws on
  the canvas step by step as the source does, and is proved to append
  exactly the commands of the matching `Layout` function. `DownloadResume`
  returns exactly one page equal to `Page(r, leading)`, along with the
  filename.

The summary's text object takes its line spacing from the canvas's 11-point
font. In reportlab that spacing is a float. Here it is the parameter
`leading`, and the lemmas that need it assume only that it is positive.
Dates are given as the text `str()` produces for them.

A few facts about the code that the model follows:

- Education is drawn before Experience (resumes/views.py:182-212).
- The filename is the full name unchanged, followed by `_resume.pdf`
  (resumes/views.py:234).
- The code does none of the following, so the model does not either: upper-case
  or centre the name, draw rules, wrap text, break pages, group skills by
  proficiency, format months, or draw descriptions.

## Model

| member | source | states |
|---|---|---|
| Strings.Split | resumes/views.py:177 | Python's `str.split` on one character, keeping empty pieces; its meaning is pinned down by SplitCount, SplitPiecesExcludeSeparator, JoinSplit and SplitJoin |
| Strings.Join | resumes/views.py:222 | Python's `str.join`: the parts in order with the separator between neighbours; positions are given by JoinPartAt and JoinSeparatorAt |
| Layout.ContactLine | resumes/views.py:162 | the contact line: email, a spaced vertical bar, phone; HeaderAt places it on the page |
| Layout.EndText | resumes/views.py:195 | `end_date or 'Present'`: the end date's text, or `Present` when there is none |
| Layout.DateLine | resumes/views.py:195 | an entry's second line: organization, a spaced vertical bar, start date, ` - `, end text; its shape is stated by DateLineEnds |
| Layout.SkillLabel | resumes/views.py:222 | one skill as its name followed by its proficiency in parentheses |
| Layout.SkillsLine | resumes/views.py:222 | all skill labels joined by `, ` in input order; its contents are stated by SkillsLineAt |
| Layout.Header | resumes/views.py:156-165 | the three header commands and the cursor 35 points lower; stated by HeaderAt |
| Layout.BodyLines | resumes/views.py:176-178 | the lines a text object draws from an origin; stated by BodyLinesAt |
| Layout.Summary | resumes/views.py:167-180 | the summary section and the cursor after it; stated by SummaryShape |
| Layout.Entries | resumes/views.py:189-196 | the title and date line of every entry, 35 points apart; stated by EntriesAt and EntriesSnoc |
| Layout.Section | resumes/views.py:182-212 | a titled entry list, skipped when empty; stated by SectionShape, EducationShape and ExperienceShape |
| Layout.Skills | resumes/views.py:214-223 | the Skills heading and its one line, skipped when there is no skill; stated by SkillsShape |
| Layout.Page | resumes/views.py:154-223 | the whole page: the five sections threading one cursor from height - 50; stated by HeaderAt, LayoutHeadings, LayoutSize and LayoutGeometry |
| PdfCanvas.Canvas.constructor | resumes/views.py:150 | a new canvas has no drawn commands, no closed pages, and 12-point Helvetica as its font |
| PdfCanvas.Canvas.SetFont | resumes/views.py:157 | sets the font and size for later strings; the page and the closed pages are unchanged |
| PdfCanvas.Canvas.DrawString | resumes/views.py:158 | appends exactly one command in the current font at the given point; nothing else changes |
| PdfCanvas.Canvas.BeginText | resumes/views.py:176 | a fresh text object at the given origin in the canvas's current font, with no lines |
| PdfCanvas.TextObject.TextLine | resumes/views.py:178 | appends one line at the current baseline and lowers the baseline by the leading |
| PdfCanvas.TextObject.GetY | resumes/views.py:180 | the baseline the next line would be drawn on |
| PdfCanvas.Canvas.DrawText | resumes/views.py:179 | appends the text object's lines to the page, in order |
| PdfCanvas.Canvas.ShowPage | resumes/views.py:226 | closes the open page by appending it to the finished pages, and starts a blank page |
| Views.DownloadResume | resumes/views.py:143-236 | the document has exactly one page, that page is exactly `Page(r, leading)`, and the filename is `Filename(full name)` |
| Views.DrawResume | resumes/views.py:153-223 | starting the cursor at height - 50, the five sections together append exactly `Page(r, leading)` to the open page and close no page |
| Views.DrawHeader | resumes/views.py:156-165 | appends the name, contact line and address commands of `Header` and returns the cursor 35 points lower |
| Views.DrawSummary | resumes/views.py:167-180 | the text-object loop appends exactly the commands of `Summary` (nothing for an empty summary) and returns its cursor, 10 below the text object's next line |
| Views.DrawEntry | resumes/views.py:189-196 | appends the bold 11-pt title at the cursor and the 10-pt date line 15 lower, and lowers the cursor by 35 |
| Views.DrawEducation | resumes/views.py:182-196 | the loop over the education entries appends exactly `Section("Education", 20, ...)`, in input order, and returns its cursor |
| Views.DrawExperience | resumes/views.py:198-212 | the loop over the experience entries appends exactly `Section("Experience", 10, ...)`, in input order, and returns its cursor |
| Views.DrawSkills | resumes/views.py:214-223 | appends the Skills heading and the one skills line, or nothing when there is no skill |
| Strings.SplitCount | resumes/views.py:177 | splitting on newline gives one piece more than the summary has newlines |
| Strings.SplitPiecesExcludeSeparator | resumes/views.py:177 | no piece of the split contains the separator |
| Strings.JoinSplit | resumes/views.py:177 | joining the split pieces with the separator gives the summary back |
| Strings.SplitJoin | resumes/views.py:177 | the converse: splitting the join of one or more separator-free parts gives the parts back |
| Strings.JoinPartAt | resumes/views.py:222 | in a `join`, part i occupies exactly the positions from its offset to its offset plus its length |
| Strings.JoinSeparatorAt | resumes/views.py:222 | in a `join`, each part but the last is followed by the separator and then the next part, and the string ends right after the last part |
| Layout.Filename | resumes/views.py:234 | the filename is the full name followed by `_resume.pdf`, and nothing else |
| LayoutFacts.FilenameInjective | resumes/views.py:234 | different full names give different filenames |
| LayoutFacts.HeaderAt | resumes/views.py:154-165 | the page begins with the name in 24-pt bold at height - 50, then the email and phone joined by a spaced vertical bar at height - 70, then the address at height - 85, all at x = 50 |
| LayoutFacts.BodyLinesAt | resumes/views.py:176-178 | line k of the text object is drawn k leadings below its origin, in 11-pt Helvetica at x = 50 |
| LayoutFacts.SummaryShape | resumes/views.py:168-180 | the summary is drawn iff it is non-empty. Its title is 30 below the cursor. Its lines are exactly the split pieces, one per newline plus one, joining back to the summary, starting 50 below the cursor, one leading apart. The cursor ends at the start - (newlines + 1) * leading - 10. An empty summary leaves the cursor alone |
| LayoutFacts.EntriesAt | resumes/views.py:189-196 | entry i is drawn 35 * i below the first: its title in bold 11 pt, its date line in 10 pt 15 lower, in input order |
| LayoutFacts.EntriesSnoc | resumes/views.py:189-196 | drawing entry i appends exactly its two lines after those of the entries before it |
| LayoutFacts.SectionShape | resumes/views.py:183-212 | a titled entry list is drawn iff it is non-empty: the heading `gap` below the cursor, then every entry's title and its date line (organization, vertical bar, start ` - ` end). The cursor ends 20 + 35 * count below the heading. An empty list leaves the cursor alone |
| LayoutFacts.EducationShape | resumes/views.py:183-196 | the Education heading is 20 below the cursor, degree i is 40 + 35 * i below it and its date line (institution, vertical bar, start ` - ` end) is 15 lower, and the cursor ends 40 + 35 * count lower; nothing is drawn without education |
| LayoutFacts.ExperienceShape | resumes/views.py:199-212 | the Experience heading is 10 below the cursor, job title i is 30 + 35 * i below it and its date line (company, vertical bar, start ` - ` end) is 15 lower, and the cursor ends 30 + 35 * count lower; nothing is drawn without experience |
| LayoutFacts.DateLineEnds | resumes/views.py:195 | the date line starts with the organization, a spaced vertical bar and the start date. It ends with ` - Present` when there is no end date, and otherwise with ` - ` and the end date |
| LayoutFacts.SkillsLineAt | resumes/views.py:222 | the skills line holds every `name (proficiency)` in input order, with `, ` between neighbours and nothing before the first or after the last |
| LayoutFacts.SkillsShape | resumes/views.py:215-223 | skills are drawn iff there is one: the heading 10 below the cursor and one line 20 lower holding the whole join, with no wrapping |
| LayoutFacts.LayoutHeadings | resumes/views.py:168-223 | the section headings on the page are Professional Summary, Education, Experience and Skills, in that order, each present iff its part of the resume is non-empty |
| LayoutFacts.LayoutSize | resumes/views.py:154-223 | the page holds 3 header lines, plus newlines + 2 for a summary, plus 1 + 2 per entry for each non-empty entry list, plus 2 for skills: nothing is dropped |
| LayoutFacts.LayoutGeometry | resumes/views.py:154-223 | for a positive leading, every command starts at x = 50 and each is drawn strictly below the one before it |

## Left out

- `get_object_or_404` and the owner filter: the resume is a parameter. The HTTP response object is left out too, apart from the filename.
- The PDF bytes, the in-memory buffer and `p.save()`: the page is modelled as its list of draw commands.
- Font metrics and the float leading: the summary's line spacing is the integer parameter `leading`.
- How dates are formatted: `str(date)` is taken as given text.
- Text that runs past the page edge or below the bottom margin: the source neither wraps nor breaks pages, and the model follows it, so y may become negative.
- The descriptions of education and experience entries are part of `Entry`, but the view never draws them.
- The other views, the forms, the URL routing and the database models are not part of this model.
- The database schema the view reads is not modelled from resumes/models.py. As written, resumes/models.py:14-16 declares `experience`, `education` and `skills` as plain text fields. It defines no `Education`, `Experience` or `Skill` model, so the import at resumes/views.py:8 fails, and `.exists()` at resumes/views.py:183, 199 and 215 would not apply to a text field. The model instead follows how the view uses them: as ordered collections of related records. Their field names (degree, institution, job title, company, start and end date, description; name and proficiency) come from resumes/forms.py:43, 76 and 109.
- LayoutFacts.LayoutGeometry: it needs a positive leading. With a leading of zero or less, the summary's lines would not move down, and reportlab never sets such a leading.
