/** What the page drawn by `download_resume` looks like: where each line is,
    what it says, which sections appear and in what order, and that the cursor
    only moves down the single page. */
module LayoutFacts {
  import opened Resumes
  import opened Strings
  import opened PdfCanvas
  import opened Layout

  // ---------- Header ----------

  /** Name at 50 points below the top, the contact line 20 points lower, the
      address 15 points lower still, all at the left margin. */
  lemma HeaderAt(r: Resume, leading: int)
    ensures |Page(r, leading)| >= 3
    ensures Page(r, leading)[0] == Draw(HelveticaBold, 24, Left, Top, r.fullName)
    ensures Page(r, leading)[1] == Draw(Helvetica, 12, Left, Top - 20, r.email + " | " + r.phone)
    ensures Page(r, leading)[2] == Draw(Helvetica, 12, Left, Top - 35, r.address)
  {
    var header := Header(r, Top);
    var summary := Summary(r.summary, header.y, leading);
    var education := Section("Education", 20, r.education, summary.y);
    var experience := Section("Experience", 10, r.experience, education.y);
    var skills := Skills(r.skills, experience.y);
    var page := header.commands + summary.commands + education.commands + experience.commands + skills.commands;
    assert page == header.commands + (summary.commands + education.commands + experience.commands + skills.commands);
    assert page[..3] == header.commands;
  }

  // ---------- Summary ----------

  /** Line `k` of a text object begun at `y` is drawn `k` leadings lower. */
  lemma {:induction false} BodyLinesAt(lines: seq<string>, y: int, leading: int)
    ensures |BodyLines(lines, y, leading)| == |lines|
    ensures forall k :: 0 <= k < |lines| ==>
      BodyLines(lines, y, leading)[k] == Draw(Helvetica, 11, Left, y - k * leading, lines[k])
  {
    if lines != [] {
      var n := |lines| - 1;
      BodyLinesAt(lines[..n], y, leading);
      forall k | 0 <= k < n
        ensures BodyLines(lines, y, leading)[k] == Draw(Helvetica, 11, Left, y - k * leading, lines[k])
      {
        assert lines[..n][k] == lines[k];
      }
    }
  }

  /** The summary is drawn only when it is non-empty; then its title comes
      30 points below the cursor and its lines are exactly the pieces of the
      summary between newlines (one more than there are newlines, joining back
      to the summary), from 50 points below the cursor one leading apart; the
      cursor ends 10 points below where the next line would go. An empty
      summary draws nothing and leaves the cursor alone. */
  lemma SummaryShape(s: string, y: int, leading: int)
    ensures (Summary(s, y, leading).commands == []) <==> s == []
    ensures s == [] ==> Summary(s, y, leading).y == y
    ensures s != [] ==>
      && |Split(s, '\n')| == Count(s, '\n') + 1
      && |Summary(s, y, leading).commands| == |Split(s, '\n')| + 1
      && Summary(s, y, leading).commands[0] == Draw(HelveticaBold, 14, Left, y - 30, "Professional Summary")
      && (forall k :: 0 <= k < |Split(s, '\n')| ==>
            Summary(s, y, leading).commands[1 + k] == Draw(Helvetica, 11, Left, y - 50 - k * leading, Split(s, '\n')[k]))
      && Join(Split(s, '\n'), "\n") == s
      && Summary(s, y, leading).y == (y - 50) - (Count(s, '\n') + 1) * leading - 10
  {
    if s != [] {
      var lines := Split(s, '\n');
      BodyLinesAt(lines, y - 50, leading);
      SplitCount(s, '\n');
      JoinSplit(s, '\n');
      var c := Summary(s, y, leading).commands;
      assert c == [Heading("Professional Summary", y - 30)] + BodyLines(lines, y - 50, leading);
      forall k | 0 <= k < |lines|
        ensures c[1 + k] == Draw(Helvetica, 11, Left, y - 50 - k * leading, lines[k])
      {
        assert c[1 + k] == BodyLines(lines, y - 50, leading)[k];
      }
    }
  }

  // ---------- Education and experience ----------

  /** Entry `i` has its title `35 * i` points below the first title and its
      date line 15 points below its title. */
  lemma {:induction false} EntriesAt(es: seq<Entry>, y: int)
    ensures |Entries(es, y)| == 2 * |es|
    ensures forall i :: 0 <= i < |es| ==>
      && Entries(es, y)[2 * i] == Draw(HelveticaBold, 11, Left, y - 35 * i, es[i].title)
      && Entries(es, y)[2 * i + 1] == Draw(Helvetica, 10, Left, y - 35 * i - 15, EntryDateLine(es[i]))
  {
    if es != [] {
      var n := |es| - 1;
      EntriesAt(es[..n], y);
      forall i | 0 <= i < n
        ensures Entries(es, y)[2 * i] == Draw(HelveticaBold, 11, Left, y - 35 * i, es[i].title)
        ensures Entries(es, y)[2 * i + 1] == Draw(Helvetica, 10, Left, y - 35 * i - 15, EntryDateLine(es[i]))
      {
        assert es[..n][i] == es[i];
      }
    }
  }

  /** Drawing entry `i` appends its two lines `35 * i` points below the first
      title. */
  lemma EntriesSnoc(es: seq<Entry>, y: int, i: nat)
    requires i < |es|
    ensures Entries(es[..i + 1], y) == Entries(es[..i], y) +
      [Draw(HelveticaBold, 11, Left, y - 35 * i, es[i].title),
       Draw(Helvetica, 10, Left, y - 35 * i - 15, EntryDateLine(es[i]))]
  {
    assert es[..i + 1][..i] == es[..i];
  }

  /** A titled list of entries is drawn exactly when it is non-empty: the
      heading `gap` points below the cursor, then per entry, in input order,
      its title and, 15 points lower, `"organization | start - end"`, each
      entry taking 35 points; an empty list leaves the cursor alone. */
  lemma SectionShape(title: string, gap: int, es: seq<Entry>, y: int)
    ensures (Section(title, gap, es, y).commands == []) <==> es == []
    ensures es == [] ==> Section(title, gap, es, y).y == y
    ensures es != [] ==>
      && |Section(title, gap, es, y).commands| == 1 + 2 * |es|
      && Section(title, gap, es, y).commands[0] == Draw(HelveticaBold, 14, Left, y - gap, title)
      && (forall i :: 0 <= i < |es| ==>
            && Section(title, gap, es, y).commands[1 + 2 * i]
                 == Draw(HelveticaBold, 11, Left, y - gap - 20 - 35 * i, es[i].title)
            && Section(title, gap, es, y).commands[2 + 2 * i]
                 == Draw(Helvetica, 10, Left, y - gap - 35 - 35 * i,
                         DateLine(es[i].organization, es[i].startDate, es[i].endDate)))
      && Section(title, gap, es, y).y == y - gap - 20 - 35 * |es|
  {
    if es != [] {
      EntriesAt(es, y - gap - 20);
      var c := Section(title, gap, es, y).commands;
      assert c == [Heading(title, y - gap)] + Entries(es, y - gap - 20);
      forall i | 0 <= i < |es|
        ensures c[1 + 2 * i] == Draw(HelveticaBold, 11, Left, y - gap - 20 - 35 * i, es[i].title)
        ensures c[2 + 2 * i] == Draw(Helvetica, 10, Left, y - gap - 35 - 35 * i,
                                     DateLine(es[i].organization, es[i].startDate, es[i].endDate))
      {
        assert c[1 + 2 * i] == Entries(es, y - gap - 20)[2 * i];
        assert c[2 + 2 * i] == Entries(es, y - gap - 20)[2 * i + 1];
      }
    }
  }

  /** The Education section: heading 20 points below the cursor, degrees from
      40 points below it, 35 points per entry. */
  lemma EducationShape(es: seq<Entry>, y: int)
    ensures (Section("Education", 20, es, y).commands == []) <==> es == []
    ensures es != [] ==>
      && |Section("Education", 20, es, y).commands| == 1 + 2 * |es|
      && Section("Education", 20, es, y).commands[0] == Draw(HelveticaBold, 14, Left, y - 20, "Education")
      && (forall i :: 0 <= i < |es| ==>
            && Section("Education", 20, es, y).commands[1 + 2 * i]
                 == Draw(HelveticaBold, 11, Left, y - 40 - 35 * i, es[i].title)
            && Section("Education", 20, es, y).commands[2 + 2 * i]
                 == Draw(Helvetica, 10, Left, y - 55 - 35 * i,
                         es[i].organization + " | " + es[i].startDate + " - " + EndText(es[i].endDate)))
      && Section("Education", 20, es, y).y == y - 40 - 35 * |es|
  {
    SectionShape("Education", 20, es, y);
  }

  /** The Experience section: heading 10 points below the cursor, job titles
      from 30 points below it, 35 points per entry. */
  lemma ExperienceShape(es: seq<Entry>, y: int)
    ensures (Section("Experience", 10, es, y).commands == []) <==> es == []
    ensures es != [] ==>
      && |Section("Experience", 10, es, y).commands| == 1 + 2 * |es|
      && Section("Experience", 10, es, y).commands[0] == Draw(HelveticaBold, 14, Left, y - 10, "Experience")
      && (forall i :: 0 <= i < |es| ==>
            && Section("Experience", 10, es, y).commands[1 + 2 * i]
                 == Draw(HelveticaBold, 11, Left, y - 30 - 35 * i, es[i].title)
            && Section("Experience", 10, es, y).commands[2 + 2 * i]
                 == Draw(Helvetica, 10, Left, y - 45 - 35 * i,
                         es[i].organization + " | " + es[i].startDate + " - " + EndText(es[i].endDate)))
      && Section("Experience", 10, es, y).y == y - 30 - 35 * |es|
  {
    SectionShape("Experience", 10, es, y);
  }

  /** A date line starts with `"org | start"` and ends with `" - Present"`
      when there is no end date, otherwise with `" - "` and the end date. */
  lemma DateLineEnds(org: string, startDate: string, endDate: Option<string>)
    ensures |DateLine(org, startDate, endDate)| >= |org| + 3 + |startDate|
    ensures DateLine(org, startDate, endDate)[..|org| + 3 + |startDate|] == org + " | " + startDate
    ensures endDate.None? ==>
      && |DateLine(org, startDate, endDate)| == |org| + |startDate| + 13
      && DateLine(org, startDate, endDate)[|org| + 3 + |startDate|..] == " - Present"
    ensures endDate.Some? ==>
      && |DateLine(org, startDate, endDate)| == |org| + |startDate| + 6 + |endDate.value|
      && DateLine(org, startDate, endDate)[|org| + 3 + |startDate|..] == " - " + endDate.value
  {
    var head := org + " | " + startDate;
    assert DateLine(org, startDate, endDate) == head + (" - " + EndText(endDate));
  }

  // ---------- Skills ----------

  /** The skills line holds `"name (proficiency)"` of every skill, in input
      order, each followed by `", "` except the last, with nothing before the
      first or after the last. */
  lemma SkillsLineAt(ks: seq<Skill>, i: nat)
    requires i < |ks|
    ensures Offset(SkillLabels(ks), ", ", i) + |SkillLabel(ks[i])| <= |SkillsLine(ks)|
    ensures SkillsLine(ks)[Offset(SkillLabels(ks), ", ", i) .. Offset(SkillLabels(ks), ", ", i) + |SkillLabel(ks[i])|]
              == ks[i].name + " (" + ks[i].proficiency + ")"
    ensures i + 1 < |ks| ==>
      && Offset(SkillLabels(ks), ", ", i + 1) == Offset(SkillLabels(ks), ", ", i) + |SkillLabel(ks[i])| + 2
      && Offset(SkillLabels(ks), ", ", i + 1) <= |SkillsLine(ks)|
      && SkillsLine(ks)[Offset(SkillLabels(ks), ", ", i) + |SkillLabel(ks[i])| .. Offset(SkillLabels(ks), ", ", i + 1)] == ", "
    ensures i + 1 == |ks| ==> Offset(SkillLabels(ks), ", ", i) + |SkillLabel(ks[i])| == |SkillsLine(ks)|
  {
    JoinPartAt(SkillLabels(ks), ", ", i);
    JoinSeparatorAt(SkillLabels(ks), ", ", i);
  }

  /** The skills section is drawn exactly when there is a skill: the heading
      10 points below the cursor and all skills on one line 20 points lower. */
  lemma SkillsShape(ks: seq<Skill>, y: int)
    ensures (Skills(ks, y).commands == []) <==> ks == []
    ensures ks == [] ==> Skills(ks, y).y == y
    ensures ks != [] ==>
      && |Skills(ks, y).commands| == 2
      && Skills(ks, y).commands[0] == Draw(HelveticaBold, 14, Left, y - 10, "Skills")
      && Skills(ks, y).commands[1] == Draw(Helvetica, 11, Left, y - 30, Join(SkillLabels(ks), ", "))
  {
  }

  // ---------- Sections and their order ----------

  lemma {:induction false} HeadingsConcat(a: seq<Command>, b: seq<Command>)
    ensures Headings(a + b) == Headings(a) + Headings(b)
  {
    if a != [] {
      HeadingsConcat(a[1..], b);
      assert (a + b)[0] == a[0];
      assert (a + b)[1..] == a[1..] + b;
    } else {
      assert a + b == b;
    }
  }

  lemma {:induction false} BodyLinesNoHeadings(lines: seq<string>, y: int, leading: int)
    ensures Headings(BodyLines(lines, y, leading)) == []
  {
    if lines != [] {
      var n := |lines| - 1;
      BodyLinesNoHeadings(lines[..n], y, leading);
      HeadingsConcat(BodyLines(lines[..n], y, leading), [Draw(Helvetica, 11, Left, y - n * leading, lines[n])]);
    }
  }

  lemma {:induction false} EntriesNoHeadings(es: seq<Entry>, y: int)
    ensures Headings(Entries(es, y)) == []
  {
    if es != [] {
      var n := |es| - 1;
      EntriesNoHeadings(es[..n], y);
      var pair := [Draw(HelveticaBold, 11, Left, y - 35 * n, es[n].title),
                   Draw(Helvetica, 10, Left, y - 35 * n - 15, EntryDateLine(es[n]))];
      assert !IsHeading(pair[0]) && !IsHeading(pair[1..][0]);
      assert pair[1..][1..] == [];
      assert Headings(pair[1..]) == [];
      assert Headings(pair) == [];
      HeadingsConcat(Entries(es[..n], y), pair);
    }
  }

  lemma SummaryHeadings(s: string, y: int, leading: int)
    ensures Headings(Summary(s, y, leading).commands) == if s != [] then ["Professional Summary"] else []
  {
    if s != [] {
      var lines := Split(s, '\n');
      HeadingsConcat([Heading("Professional Summary", y - 30)], BodyLines(lines, y - 50, leading));
      BodyLinesNoHeadings(lines, y - 50, leading);
    }
  }

  lemma SectionHeadings(title: string, gap: int, es: seq<Entry>, y: int)
    ensures Headings(Section(title, gap, es, y).commands) == if es != [] then [title] else []
  {
    if es != [] {
      HeadingsConcat([Heading(title, y - gap)], Entries(es, y - gap - 20));
      EntriesNoHeadings(es, y - gap - 20);
    }
  }

  lemma HeaderHeadings(r: Resume, y: int)
    ensures Headings(Header(r, y).commands) == []
  {
    var c := Header(r, y).commands;
    assert c[1..][1..][1..] == [];
    assert Headings(c[1..][1..]) == [];
    assert Headings(c[1..]) == [];
  }

  lemma SkillsHeadings(ks: seq<Skill>, y: int)
    ensures Headings(Skills(ks, y).commands) == if ks != [] then ["Skills"] else []
  {
    if ks != [] {
      var c := Skills(ks, y).commands;
      assert c[1..][1..] == [];
      assert Headings(c[1..]) == [];
    }
  }

  /** The section headings on the page are, in this order, Professional
      Summary, Education, Experience and Skills, each present exactly when its
      part of the resume is non-empty. */
  lemma {:induction false} LayoutHeadings(r: Resume, leading: int)
    ensures Headings(Page(r, leading)) ==
      (if r.summary != [] then ["Professional Summary"] else []) +
      (if r.education != [] then ["Education"] else []) +
      (if r.experience != [] then ["Experience"] else []) +
      (if r.skills != [] then ["Skills"] else [])
  {
    var header := Header(r, Top);
    var summary := Summary(r.summary, header.y, leading);
    var education := Section("Education", 20, r.education, summary.y);
    var experience := Section("Experience", 10, r.experience, education.y);
    var skills := Skills(r.skills, experience.y);
    assert Page(r, leading) == header.commands + summary.commands + education.commands + experience.commands + skills.commands;
    HeadingsOfFive(header.commands, summary.commands, education.commands, experience.commands, skills.commands);
    HeaderHeadings(r, Top);
    SummaryHeadings(r.summary, header.y, leading);
    SectionHeadings("Education", 20, r.education, summary.y);
    SectionHeadings("Experience", 10, r.experience, education.y);
    SkillsHeadings(r.skills, experience.y);
    var hs := if r.summary != [] then ["Professional Summary"] else [];
    var he := if r.education != [] then ["Education"] else [];
    var hx := if r.experience != [] then ["Experience"] else [];
    var hk := if r.skills != [] then ["Skills"] else [];
    assert Headings(summary.commands) == hs;
    assert Headings(education.commands) == he;
    assert Headings(experience.commands) == hx;
    assert Headings(skills.commands) == hk;
    calc {
      Headings(Page(r, leading));
      Headings(header.commands) + Headings(summary.commands) + Headings(education.commands)
        + Headings(experience.commands) + Headings(skills.commands);
      [] + hs + he + hx + hk;
      { assert [] + hs == hs; }
      hs + he + hx + hk;
    }
  }

  lemma HeadingsOfFive(a: seq<Command>, b: seq<Command>, c: seq<Command>, d: seq<Command>, e: seq<Command>)
    ensures Headings(a + b + c + d + e) == Headings(a) + Headings(b) + Headings(c) + Headings(d) + Headings(e)
  {
    HeadingsConcat(a, b);
    HeadingsConcat(a + b, c);
    HeadingsConcat(a + b + c, d);
    HeadingsConcat(a + b + c + d, e);
  }

  /** Three header lines, then for a non-empty summary its title and one line
      per piece between newlines, for each non-empty list its heading and two
      lines per entry, and for skills a heading and one line: nothing is dropped,
      however far down the page the cursor gets. */
  lemma LayoutSize(r: Resume, leading: int)
    ensures |Page(r, leading)| ==
      3 +
      (if r.summary != [] then Count(r.summary, '\n') + 2 else 0) +
      (if r.education != [] then 1 + 2 * |r.education| else 0) +
      (if r.experience != [] then 1 + 2 * |r.experience| else 0) +
      (if r.skills != [] then 2 else 0)
  {
    var header := Header(r, Top);
    var summary := Summary(r.summary, header.y, leading);
    var education := Section("Education", 20, r.education, summary.y);
    var experience := Section("Experience", 10, r.experience, education.y);
    SummaryShape(r.summary, header.y, leading);
    SectionShape("Education", 20, r.education, summary.y);
    SectionShape("Experience", 10, r.experience, education.y);
    SkillsShape(r.skills, experience.y);
  }

  // ---------- Geometry ----------

  /** Gluing two blocks where the first lies at or above `m` and the second
      strictly below it keeps the order and the margin. */
  lemma Stack(a: seq<Command>, b: seq<Command>, m: int, e: int)
    requires Descending(a) && AtLeftMargin(a) && AtOrAbove(a, m)
    requires Descending(b) && AtLeftMargin(b) && Below(b, m) && AtOrAbove(b, e)
    requires e <= m
    ensures Descending(a + b) && AtLeftMargin(a + b) && AtOrAbove(a + b, e)
  {
    var c := a + b;
    forall i, j | 0 <= i < j < |c| ensures c[j].y < c[i].y {
      if j < |a| {
        assert c[i] == a[i] && c[j] == a[j];
      } else if i < |a| {
        assert c[i] == a[i] && c[j] == b[j - |a|];
      } else {
        assert c[i] == b[i - |a|] && c[j] == b[j - |a|];
      }
    }
  }

  lemma {:induction false} BodyLinesBlock(lines: seq<string>, y: int, leading: int)
    requires leading > 0
    ensures Descending(BodyLines(lines, y, leading))
    ensures AtLeftMargin(BodyLines(lines, y, leading))
    ensures Below(BodyLines(lines, y, leading), y + 1)
    ensures AtOrAbove(BodyLines(lines, y, leading), y - |lines| * leading + leading)
  {
    if lines != [] {
      var n := |lines| - 1;
      BodyLinesBlock(lines[..n], y, leading);
      var last := Draw(Helvetica, 11, Left, y - n * leading, lines[n]);
      assert n * leading >= 0;
      assert |lines| * leading == n * leading + leading;
      Stack(BodyLines(lines[..n], y, leading), [last], y - n * leading + leading, y - n * leading);
    }
  }

  /** An entry's two lines: the title at `top`, the date line 15 lower. */
  lemma PairBlock(pair: seq<Command>, top: int)
    requires |pair| == 2 && pair[0].y == top && pair[1].y == top - 15
    requires pair[0].x == Left && pair[1].x == Left
    ensures Descending(pair) && AtLeftMargin(pair) && Below(pair, top + 1) && AtOrAbove(pair, top - 15)
  {
  }

  lemma {:induction false} EntriesBlock(es: seq<Entry>, y: int)
    ensures Descending(Entries(es, y))
    ensures AtLeftMargin(Entries(es, y))
    ensures Below(Entries(es, y), y + 1)
    ensures AtOrAbove(Entries(es, y), y - 35 * |es| + 20)
  {
    if es != [] {
      var n := |es| - 1;
      EntriesBlock(es[..n], y);
      var front := Entries(es[..n], y);
      var pair := [Draw(HelveticaBold, 11, Left, y - 35 * n, es[n].title),
                   Draw(Helvetica, 10, Left, y - 35 * n - 15, EntryDateLine(es[n]))];
      assert Entries(es, y) == front + pair;
      PairBlock(pair, y - 35 * n);
      Stack(front, pair, y - 35 * n + 20, y - 35 * n - 15);
    }
  }

  lemma SummaryBlock(s: string, y: int, leading: int)
    requires leading > 0
    ensures var step := Summary(s, y, leading);
      Descending(step.commands) && AtLeftMargin(step.commands) &&
      Below(step.commands, y) && AtOrAbove(step.commands, step.y) && step.y <= y
  {
    if s != [] {
      var lines := Split(s, '\n');
      var n := |lines|;
      var step := Summary(s, y, leading);
      BodyLinesBlock(lines, y - 50, leading);
      assert n * leading >= 0;
      Stack([Heading("Professional Summary", y - 30)], BodyLines(lines, y - 50, leading), y - 30, step.y);
    }
  }

  lemma SectionBlock(title: string, gap: int, es: seq<Entry>, y: int)
    requires gap > 0
    ensures var step := Section(title, gap, es, y);
      Descending(step.commands) && AtLeftMargin(step.commands) &&
      Below(step.commands, y) && AtOrAbove(step.commands, step.y) && step.y <= y
  {
    if es != [] {
      var step := Section(title, gap, es, y);
      EntriesBlock(es, y - gap - 20);
      Stack([Heading(title, y - gap)], Entries(es, y - gap - 20), y - gap, step.y);
    }
  }

  /** Every string starts at the left margin and every command is drawn
      strictly below the one before it: the cursor only moves down. */
  lemma LayoutGeometry(r: Resume, leading: int)
    requires leading > 0
    ensures AtLeftMargin(Page(r, leading))
    ensures forall i, j :: 0 <= i < j < |Page(r, leading)| ==> Page(r, leading)[j].y < Page(r, leading)[i].y
  {
    var header := Header(r, Top);
    var summary := Summary(r.summary, header.y, leading);
    var education := Section("Education", 20, r.education, summary.y);
    var experience := Section("Experience", 10, r.experience, education.y);
    var skills := Skills(r.skills, experience.y);
    SummaryBlock(r.summary, header.y, leading);
    SectionBlock("Education", 20, r.education, summary.y);
    SectionBlock("Experience", 10, r.experience, education.y);
    var a := header.commands;
    Stack(a, summary.commands, header.y, summary.y);
    a := a + summary.commands;
    Stack(a, education.commands, summary.y, education.y);
    a := a + education.commands;
    Stack(a, experience.commands, education.y, experience.y);
    a := a + experience.commands;
    Stack(a, skills.commands, experience.y, skills.y);
    a := a + skills.commands;
    assert a == Page(r, leading);
  }

  // ---------- Filename ----------

  /** Different owners' names give different filenames. */
  lemma FilenameInjective(a: string, b: string)
    requires Filename(a) == Filename(b)
    ensures a == b
  {
    assert a == Filename(a)[..|a|];
  }
}
