/** `download_resume`: draws a resume onto one letter page with a single
    vertical cursor and names the file it is downloaded as. Each section is a
    method that draws from the cursor it is given and returns the lowered
    cursor, exactly as the section function of the same name in `Layout`. */
module Views {
  import opened Resumes
  import opened Strings
  import opened PdfCanvas
  import opened Layout
  import opened LayoutFacts

  /** Name, contact line and address, the cursor lowered between them. */
  method DrawHeader(p: Canvas, r: Resume, y0: int) returns (y: int)
    modifies p
    ensures p.page == old(p.page) + Header(r, y0).commands && y == Header(r, y0).y
    ensures p.pages == old(p.pages)
  {
    y := y0;
    p.SetFont(HelveticaBold, 24);
    p.DrawString(Left, y, r.fullName);
    y := y - 20;
    p.SetFont(Helvetica, 12);
    p.DrawString(Left, y, ContactLine(r.email, r.phone));
    y := y - 15;
    p.DrawString(Left, y, r.address);
  }

  /** Title and the summary's lines through a text object; nothing when the
      summary is empty. The cursor ends 10 points below the text object's
      next line. */
  method DrawSummary(p: Canvas, summary: string, y0: int, leading: int) returns (y: int)
    modifies p
    ensures p.page == old(p.page) + Summary(summary, y0, leading).commands
    ensures y == Summary(summary, y0, leading).y
    ensures p.pages == old(p.pages)
  {
    y := y0;
    if summary != [] {
      y := y - 30;
      p.SetFont(HelveticaBold, 14);
      p.DrawString(Left, y, "Professional Summary");
      y := y - 20;
      p.SetFont(Helvetica, 11);
      var text := p.BeginText(Left, y, leading);
      var lines := Split(summary, '\n');
      for i := 0 to |lines|
        modifies text
        invariant text.lines == BodyLines(lines[..i], y, leading)
        invariant text.y == y - i * leading
      {
        assert lines[..i + 1][..i] == lines[..i];
        text.TextLine(lines[i]);
      }
      assert lines[..|lines|] == lines;
      p.DrawText(text);
      y := text.GetY() - 10;
    }
  }

  /** One education or experience entry: its title in bold, its date line
      15 points lower, and the cursor left 35 points below the title. */
  method DrawEntry(p: Canvas, title: string, detail: string, y0: int) returns (y: int)
    modifies p
    ensures p.page == old(p.page) + [Draw(HelveticaBold, 11, Left, y0, title), Draw(Helvetica, 10, Left, y0 - 15, detail)]
    ensures y == y0 - 35 && p.pages == old(p.pages)
  {
    y := y0;
    p.SetFont(HelveticaBold, 11);
    p.DrawString(Left, y, title);
    y := y - 15;
    p.SetFont(Helvetica, 10);
    p.DrawString(Left, y, detail);
    y := y - 20;
  }

  /** The Education heading and, per entry in order, the degree and its date
      line; nothing when there is no entry. */
  method DrawEducation(p: Canvas, es: seq<Entry>, y0: int) returns (y: int)
    modifies p
    ensures p.page == old(p.page) + Section("Education", 20, es, y0).commands
    ensures y == Section("Education", 20, es, y0).y
    ensures p.pages == old(p.pages)
  {
    y := y0;
    if |es| > 0 {
      y := y - 20;
      p.SetFont(HelveticaBold, 14);
      p.DrawString(Left, y, "Education");
      y := y - 20;
      ghost var first := y;
      ghost var titled := p.page;
      for i := 0 to |es|
        invariant p.page == titled + Entries(es[..i], first)
        invariant y == first - 35 * i
        invariant p.pages == old(p.pages)
      {
        var edu := es[i];
        EntriesSnoc(es, first, i);
        y := DrawEntry(p, edu.title, DateLine(edu.organization, edu.startDate, edu.endDate), y);
      }
      assert es[..|es|] == es;
    }
  }

  /** The Experience heading and, per entry in order, the job title and its
      date line; nothing when there is no entry. */
  method DrawExperience(p: Canvas, xs: seq<Entry>, y0: int) returns (y: int)
    modifies p
    ensures p.page == old(p.page) + Section("Experience", 10, xs, y0).commands
    ensures y == Section("Experience", 10, xs, y0).y
    ensures p.pages == old(p.pages)
  {
    y := y0;
    if |xs| > 0 {
      y := y - 10;
      p.SetFont(HelveticaBold, 14);
      p.DrawString(Left, y, "Experience");
      y := y - 20;
      ghost var first := y;
      ghost var titled := p.page;
      for i := 0 to |xs|
        invariant p.page == titled + Entries(xs[..i], first)
        invariant y == first - 35 * i
        invariant p.pages == old(p.pages)
      {
        var exp := xs[i];
        EntriesSnoc(xs, first, i);
        y := DrawEntry(p, exp.title, DateLine(exp.organization, exp.startDate, exp.endDate), y);
      }
      assert xs[..|xs|] == xs;
    }
  }

  /** The Skills heading and every skill on one line; nothing when there is
      no skill. */
  method DrawSkills(p: Canvas, ks: seq<Skill>, y0: int) returns (y: int)
    modifies p
    ensures p.page == old(p.page) + Skills(ks, y0).commands && y == Skills(ks, y0).y
    ensures p.pages == old(p.pages)
  {
    y := y0;
    if |ks| > 0 {
      y := y - 10;
      p.SetFont(HelveticaBold, 14);
      p.DrawString(Left, y, "Skills");
      y := y - 20;
      p.SetFont(Helvetica, 11);
      var skillsText := SkillsLine(ks);
      p.DrawString(Left, y, skillsText);
    }
  }

  /** Draws every section of `r` on the canvas's current page, the cursor
      starting 50 points below the top of the page. */
  method DrawResume(p: Canvas, r: Resume, leading: int)
    modifies p
    ensures p.page == old(p.page) + Page(r, leading)
    ensures p.pages == old(p.pages)
  {
    ghost var start := p.page;
    ghost var header := Header(r, Top);
    ghost var summary := Summary(r.summary, header.y, leading);
    ghost var education := Section("Education", 20, r.education, summary.y);
    ghost var experience := Section("Experience", 10, r.experience, education.y);
    ghost var skills := Skills(r.skills, experience.y);
    ghost var drawn := [];
    var y := Top;
    y := DrawHeader(p, r, y);
    drawn := header.commands;
    assert p.page == start + drawn && y == header.y;
    y := DrawSummary(p, r.summary, y, leading);
    drawn := drawn + summary.commands;
    assert p.page == start + drawn && y == summary.y;
    y := DrawEducation(p, r.education, y);
    drawn := drawn + education.commands;
    assert p.page == start + drawn && y == education.y;
    y := DrawExperience(p, r.experience, y);
    drawn := drawn + experience.commands;
    assert p.page == start + drawn && y == experience.y;
    y := DrawSkills(p, r.skills, y);
    drawn := drawn + skills.commands;
    assert p.page == start + drawn && drawn == Page(r, leading);
  }

  /** Renders `r` on a fresh canvas and closes the page. `leading` is the
      line spacing of the canvas's 11-point body font, which the summary's
      text object uses. The document is one page holding exactly
      `Page(r, leading)`. */
  method DownloadResume(r: Resume, leading: int) returns (pages: seq<seq<Command>>, filename: string)
    ensures |pages| == 1 && pages[0] == Page(r, leading)
    ensures filename == Filename(r.fullName)
  {
    var p := new Canvas();
    DrawResume(p, r, leading);
    p.ShowPage();
    pages := p.pages;
    filename := Filename(r.fullName);
  }
}
