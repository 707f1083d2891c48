/**
 * The section overlay: the section whose id is open is looked up in the content table and
 * shown with one content block chosen by its id; Escape, a backdrop click and the close
 * button ask the parent to close it.
 */
module InfoPanel {
  import opened Wrappers
  import opened Portfolio

  /** `sections.find(s => s.id === openId)`: the first section carrying the id, if any. */
  function Find(table: seq<Section>, openId: Option<SectionId>): (r: Option<Section>)
    ensures r.Some? ==> openId == Some(r.value.id) && r.value in table
    ensures r.None? ==> openId.None? || forall i :: 0 <= i < |table| ==> table[i].id != openId.value
    ensures r.Some? ==> exists i :: 0 <= i < |table| && table[i] == r.value &&
                                    forall j :: 0 <= j < i ==> table[j].id != openId.value
  {
    if openId.None? || table == [] then None
    else if table[0].id == openId.value then Some(table[0])
    else
      var r := Find(table[1..], openId);
      if r.Some? then
        var i :| 0 <= i < |table[1..]| && table[1..][i] == r.value &&
                 forall j :: 0 <= j < i ==> table[1..][j].id != openId.value;
        assert table[i + 1] == r.value;
        r
      else r
  }

  /** In a table without repeated ids, the lookup of the id at index `i` finds entry `i`. */
  lemma FindDistinct(table: seq<Section>, i: int)
    requires IdsDistinct(table) && 0 <= i < |table|
    ensures Find(table, Some(table[i].id)) == Some(table[i])
  {
  }

  /** A string is shown by `s && ...` only when it is present and non-empty. */
  predicate Truthy(s: Option<string>) {
    s.Some? && s.value != ""
  }

  /** The strings among `ss` that are shown, in order. */
  function ShownStrings(ss: seq<Option<string>>): (r: seq<string>)
    ensures |r| <= |ss|
    ensures forall x :: x in r <==> exists i :: 0 <= i < |ss| && Truthy(ss[i]) && ss[i].value == x
  {
    if ss == [] then []
    else
      var rest := ShownStrings(ss[1..]);
      assert forall i :: 1 <= i < |ss| ==> ss[i] == ss[1..][i - 1];
      if Truthy(ss[0]) then [ss[0].value] + rest else rest
  }

  /** Filtering keeps order: the shown strings of a concatenation are those of each part, in turn. */
  lemma {:induction false} ShownStringsAppend(a: seq<Option<string>>, b: seq<Option<string>>)
    ensures ShownStrings(a + b) == ShownStrings(a) + ShownStrings(b)
  {
    if a == [] {
      assert a + b == b;
    } else {
      assert (a + b)[1..] == a[1..] + b;
      ShownStringsAppend(a[1..], b);
    }
  }

  /** The shown strings of a single optional string: its value when it is truthy. */
  lemma ShownStringsSingle(x: Option<string>)
    ensures ShownStrings([x]) == if Truthy(x) then [x.value] else []
  {
    assert [x][1..] == [];
  }

  /** A titled list shown by `xs && xs.length > 0 && ...`. */
  datatype TitledList<T> = TitledList(title: string, items: seq<T>)

  /** The titled list for an optional list: shown only when present and non-empty. */
  function ShownList<T>(title: string, xs: Option<seq<T>>): (r: seq<TitledList<T>>)
    ensures |r| == 1 <==> xs.Some? && |xs.value| > 0
    ensures r == [] || (|r| == 1 && r[0] == TitledList(title, xs.value))
  {
    if xs.Some? && |xs.value| > 0 then [TitledList(title, xs.value)] else []
  }

  /** One line of the contact block: its caption and the value. */
  datatype ContactLine = ContactLine(caption: string, value: string)

  /** The line `caption value`, drawn only when the value is present and non-empty. */
  function ShownContactLine(caption: string, v: Option<string>): (r: seq<ContactLine>)
    ensures |r| <= 1
    ensures |r| == 1 <==> Truthy(v)
    ensures |r| == 1 ==> r[0] == ContactLine(caption, v.value)
  {
    if Truthy(v) then [ContactLine(caption, v.value)] else []
  }

  /** The content block `PanelSection` renders. */
  datatype Block =
    | HomeBlock(headline: Option<string>, paragraphs: seq<string>)
    | SkillsBlock(skillLists: seq<TitledList<string>>)
    | ExperienceBlock(jobs: seq<Job>)
    | EducationBlock(schools: seq<TitledList<School>>, certifications: seq<TitledList<string>>)
    | ContactBlock(lines: seq<ContactLine>)
    | NoBlock

  /**
   * The block for a section, chosen by its id. The experience and contact blocks also need
   * their content field; without it nothing is drawn.
   */
  function BlockFor(s: Section): (b: Block)
    ensures b.HomeBlock? <==> s.id == Home
    ensures b.SkillsBlock? <==> s.id == Skills
    ensures b.ExperienceBlock? <==> s.id == Experience && s.content.experience.Some?
    ensures b.ExperienceBlock? ==> b.jobs == s.content.experience.value
    ensures b.EducationBlock? <==> s.id == Education
    ensures b.ContactBlock? <==> s.id == Contact && s.content.contact.Some?
    ensures b.NoBlock? <==> (s.id == Experience && s.content.experience.None?) ||
                            (s.id == Contact && s.content.contact.None?)
  {
    var c := s.content;
    match s.id
    case Home => HomeBlock(c.headline, ShownStrings([c.subHeadline, c.location, c.summary]))
    case Skills =>
      SkillsBlock(ShownList("Top Skills", c.skillsTop) + ShownList("Technical Expertise", c.skillsTechnical) +
                  ShownList("Emerging Technologies", c.skillsMisc))
    case Experience => if c.experience.Some? then ExperienceBlock(c.experience.value) else NoBlock
    case Education => EducationBlock(ShownList("Education", c.education), ShownList("Certifications", c.certifications))
    case Contact =>
      if c.contact.None? then NoBlock
      else
        var k := c.contact.value;
        ContactBlock(ShownContactLine("Phone:", k.phone) + ShownContactLine("Email:", k.email) +
                     ShownContactLine("LinkedIn:", k.linkedin) + ShownContactLine("Portfolio:", k.portfolio) +
                     ShownContactLine("Address:", k.address))
  }

  /**
   * The home block shows the headline, then the sub-headline, the location and the summary,
   * in that order, each only when present and non-empty.
   */
  lemma {:induction false} HomeParagraphs(s: Section)
    requires s.id == Home
    ensures var c := s.content;
            BlockFor(s) == HomeBlock(c.headline,
              (if Truthy(c.subHeadline) then [c.subHeadline.value] else []) +
              (if Truthy(c.location) then [c.location.value] else []) +
              (if Truthy(c.summary) then [c.summary.value] else []))
  {
    var c := s.content;
    assert [c.subHeadline, c.location, c.summary] == [c.subHeadline] + ([c.location] + [c.summary]);
    ShownStringsAppend([c.subHeadline], [c.location] + [c.summary]);
    ShownStringsAppend([c.location], [c.summary]);
    ShownStringsSingle(c.subHeadline);
    ShownStringsSingle(c.location);
    ShownStringsSingle(c.summary);
  }

  /**
   * The skills block shows Top Skills, Technical Expertise and Emerging Technologies, in that
   * order, each with its items and only when present and non-empty.
   */
  lemma SkillLists(s: Section)
    requires s.id == Skills
    ensures var c := s.content;
            BlockFor(s).skillLists ==
              (if c.skillsTop.Some? && |c.skillsTop.value| > 0 then [TitledList("Top Skills", c.skillsTop.value)] else []) +
              (if c.skillsTechnical.Some? && |c.skillsTechnical.value| > 0
               then [TitledList("Technical Expertise", c.skillsTechnical.value)] else []) +
              (if c.skillsMisc.Some? && |c.skillsMisc.value| > 0 then [TitledList("Emerging Technologies", c.skillsMisc.value)] else [])
  {
  }

  /** Each skills list appears exactly when it is present and non-empty. */
  lemma {:induction false} SkillListsShownWhenNonEmpty(s: Section)
    requires s.id == Skills
    ensures var lists := BlockFor(s).skillLists;
            var c := s.content;
            (TitledList("Top Skills", c.skillsTop.GetOr([])) in lists <==> c.skillsTop.Some? && |c.skillsTop.value| > 0) &&
            (TitledList("Technical Expertise", c.skillsTechnical.GetOr([])) in lists <==> c.skillsTechnical.Some? && |c.skillsTechnical.value| > 0) &&
            (TitledList("Emerging Technologies", c.skillsMisc.GetOr([])) in lists <==> c.skillsMisc.Some? && |c.skillsMisc.value| > 0)
  {
    var c := s.content;
    var a, b, d := ShownList("Top Skills", c.skillsTop), ShownList("Technical Expertise", c.skillsTechnical),
                   ShownList("Emerging Technologies", c.skillsMisc);
    assert BlockFor(s).skillLists == a + b + d;
    assert forall x :: x in a + b + d <==> x in a || x in b || x in d;
  }

  /**
   * The education block shows the Education list and the Certifications list, each with its
   * items and only when present and non-empty.
   */
  lemma EducationLists(s: Section)
    requires s.id == Education
    ensures var c := s.content;
            BlockFor(s).schools ==
              (if c.education.Some? && |c.education.value| > 0 then [TitledList("Education", c.education.value)] else [])
    ensures var c := s.content;
            BlockFor(s).certifications ==
              (if c.certifications.Some? && |c.certifications.value| > 0
               then [TitledList("Certifications", c.certifications.value)] else [])
  {
  }

  /**
   * The contact block draws phone, email, LinkedIn, portfolio and address, in that order, each
   * as its caption and value and only when present and non-empty; so one line per such field.
   */
  lemma ContactLines(s: Section)
    requires s.id == Contact && s.content.contact.Some?
    ensures var k := s.content.contact.value;
            BlockFor(s).lines ==
              (if Truthy(k.phone) then [ContactLine("Phone:", k.phone.value)] else []) +
              (if Truthy(k.email) then [ContactLine("Email:", k.email.value)] else []) +
              (if Truthy(k.linkedin) then [ContactLine("LinkedIn:", k.linkedin.value)] else []) +
              (if Truthy(k.portfolio) then [ContactLine("Portfolio:", k.portfolio.value)] else []) +
              (if Truthy(k.address) then [ContactLine("Address:", k.address.value)] else [])
    ensures var k := s.content.contact.value;
            |BlockFor(s).lines| == (if Truthy(k.phone) then 1 else 0) + (if Truthy(k.email) then 1 else 0) +
                                   (if Truthy(k.linkedin) then 1 else 0) + (if Truthy(k.portfolio) then 1 else 0) +
                                   (if Truthy(k.address) then 1 else 0)
  {
  }

  /** What the overlay draws: the section's name, its tagline and its block. */
  datatype PanelView = PanelView(name: string, short: string, block: Block)

  /** The overlay for `openId`: nothing when no section carries it. */
  function Render(openId: Option<SectionId>): (r: Option<PanelView>)
    ensures r.None? <==> Find(Sections, openId).None?
    ensures r.Some? ==> var s := Find(Sections, openId).value;
                        r.value == PanelView(s.name, s.short, BlockFor(s))
  {
    match Find(Sections, openId)
    case None => None
    case Some(s) => Some(PanelView(s.name, s.short, BlockFor(s)))
  }

  /** With no id open nothing is drawn; every id opens its own section of the table. */
  lemma {:induction false} RenderShowsSection(id: SectionId)
    ensures Render(None).None?
    ensures exists i :: 0 <= i < |Sections| && Sections[i].id == id &&
                        Render(Some(id)) == Some(PanelView(Sections[i].name, Sections[i].short, BlockFor(Sections[i])))
  {
    EveryIdOnce(id);
    SectionIdsDistinct();
    var i :| 0 <= i < |Sections| && Sections[i].id == id;
    FindDistinct(Sections, i);
  }

  /** Events the overlay reacts to. */
  datatype UiEvent = KeyDown(key: string) | BackdropClick | CloseButtonClick | PanelClick

  /**
   * Whether an event calls `onClose`. The key listener is installed whether or not a section
   * is open, and reacts to Escape only. The backdrop and the close button exist only while a
   * section is shown; a click inside the panel stops before it reaches the backdrop.
   */
  predicate CallsClose(openId: Option<SectionId>, e: UiEvent) {
    match e
    case KeyDown(key) => key == "Escape"
    case BackdropClick => Render(openId).Some?
    case CloseButtonClick => Render(openId).Some?
    case PanelClick => false
  }

  /** Escape closes whatever is open, even nothing; every other key is ignored. */
  lemma EscapeOnly(openId: Option<SectionId>, key: string)
    ensures CallsClose(openId, KeyDown(key)) <==> key == "Escape"
  {
  }

  /** While a section is shown, the backdrop and the close button close it and the panel does not. */
  lemma {:induction false} ClickTargets(id: SectionId)
    ensures CallsClose(Some(id), BackdropClick)
    ensures CallsClose(Some(id), CloseButtonClick)
    ensures !CallsClose(Some(id), PanelClick)
  {
    RenderShowsSection(id);
  }
}
