/**
 * The portfolio's fixed content table: five sections, each with an id, a display name, a
 * short tagline and a record of optional content fields.
 */
module Portfolio {
  import opened Wrappers

  /** The five section ids. */
  datatype SectionId = Home | Skills | Experience | Education | Contact

  /** Every section id, in declaration order. */
  const AllIds: seq<SectionId> := [Home, Skills, Experience, Education, Contact]

  /** The string value of an id. */
  function IdText(id: SectionId): string {
    match id
    case Home => "home"
    case Skills => "skills"
    case Experience => "experience"
    case Education => "education"
    case Contact => "contact"
  }

  /** One entry of the experience list. */
  datatype Job = Job(company: string, role: string, period: string, bullets: seq<string>)

  /** One entry of the education list. */
  datatype School = School(school: string, degree: string, period: string)

  /** The contact record; each line is optional. */
  datatype ContactInfo = ContactInfo(
    phone: Option<string>,
    email: Option<string>,
    linkedin: Option<string>,
    portfolio: Option<string>,
    address: Option<string>)

  /** The content record of a section; every field is optional. */
  datatype Content = Content(
    headline: Option<string>,
    subHeadline: Option<string>,
    location: Option<string>,
    summary: Option<string>,
    skillsTop: Option<seq<string>>,
    skillsTechnical: Option<seq<string>>,
    skillsMisc: Option<seq<string>>,
    experience: Option<seq<Job>>,
    education: Option<seq<School>>,
    certifications: Option<seq<string>>,
    contact: Option<ContactInfo>)

  /** A content record with no field set. */
  const NoContent := Content(None, None, None, None, None, None, None, None, None, None, None)

  datatype Section = Section(id: SectionId, name: string, short: string, content: Content)

  const HomeSection := Section(Home, "Home", "Welcome", NoContent.(
    headline := Some("Pirapat Thananopparit"),
    subHeadline := Some("Senior .NET Developer @ SET | Full Stack Engineer | Context Engineer | CyberSec | Lifelong Learner | Technology Evangelist"),
    location := Some("Amphoe Thanyaburi, Pathum Thani, Thailand"),
    summary := Some("A seasoned technology professional with 14 years of experience in software development and system analysis. My expertise spans web, app, and mobile platforms, with deep proficiency in full-stack web development, KIOSK solutions, and payment gateway integration in Thailand. I am an enthusiast of emerging technologies like AI/ML and Blockchain and thrive in roles that involve problem-solving and research & development.")))

  const SkillsSection := Section(Skills, "Skills", "Strengths", NoContent.(
    skillsTop := Some([
      "Team Leadership",
      "Critical Thinking and Problem Solving",
      "System Analyst and System Architecture",
      "Full-Stack Development",
      "Research and Proof of Concepts Development"]),
    skillsTechnical := Some([
      "14 Years of Web and System Development: 14 years of experience in software development and system analysis, 8 years of proficiency in web development, with 6 years as a full-stack developer.",
      "Platforms & Frameworks: ASP.NET, ASP.NET MVC, SiteCore CMS, WordPress, WCF, WPF.",
      "Databases: Oracle (10g, 11g), SQL Server, MySQL.",
      "ERP: Oracle 10g, Oracle 11g.",
      "Embedded Systems: Microcontroller programming, Windows CE.",
      "API Integration: Google API, Facebook API, Sabre Booking Engine, and various payment gateways."]),
    skillsMisc := Some([
      "AI/ML: Experience with ChatGPT (GPT-5, GPT-5 Codex), Gemini, Stable Diffusion, ComfyUI, Midjourney, Pika, Suno, and Krita.",
      "Blockchain: Interest in Cryptocurrency, NFTs, DeFi, GameFi, and the Metaverse."])))

  const ExperienceSection := Section(Experience, "Experience", "What I did", NoContent.(
    experience := Some([
      Job("The Stock Exchange of Thailand", "Senior .Net Developer (Contracts)", "September 2025 - Present", [
        "Lead the design, development, and implementation of new SET systems to replace legacy platforms.",
        "Develop Windows applications, background services, and REST APIs to meet business and regulatory requirements.",
        "Integrate software components into fully functional and secure systems.",
        "Troubleshoot, debug, and upgrade existing systems for performance and reliability improvements.",
        "Mentor junior developers and perform code reviews to enforce coding standards."]),
      Job("Extend IT Resource Co., Ltd.", "System Analyst (WPF)", "April 2024 - November 2024 (8 months)", [
        "Conducted application blueprinting and architecture overviews.",
        "Assisted in planning, designing, and developing new applications and enhancements.",
        "Collaborated with developers and DevOps to ensure proper system infrastructure and design.",
        "Coached, mentored, and supervised project teams."]),
      Job("ONYX Hospitality Group", "Assistant Manager, Web Programming (E-Commerce & Distribution)",
        "September 2022 - April 2024 (1 year 8 months)", [
        "Implemented website designs and new functionality on SiteCore and WordPress CMS.",
        "Kept websites up-to-date with ASP.NET and ASP.NET MVC standards.",
        "Integrated Google API, Facebook API, and the Sabre Booking Engine.",
        "Supported web optimization, SEO, and provided user support and training."])])))

  const EducationSection := Section(Education, "Education & Certifications", "Learning", NoContent.(
    education := Some([
      School("King Mongkut's Institute of Technology Ladkrabang",
        "Bachelor of Science - B.Sc., Information Technology", "May 2006 - May 2010")]),
    certifications := Some([
      "Critical Thinking and Problem Solving",
      "Cybersecurity Series",
      "Ethereum Smart Contract Programming 201",
      "Build your own Proof Of Stake Blockchain by Lukas Hubl",
      "Software Architecture: Patterns for Developers"])))

  const ContactSection := Section(Contact, "Contact", "Reach out", NoContent.(
    contact := Some(ContactInfo(
      Some("(+66) 635161711"),
      Some("flow2dacode@gmail.com"),
      Some("www.linkedin.com/in/kushmane"),
      Some("thecosmic.dev/"),
      Some("Thanyaburi, Pathum Thani, Thailand 12130")))))

  /** The `sections` table, in display order. */
  const Sections: seq<Section> := [HomeSection, SkillsSection, ExperienceSection, EducationSection, ContactSection]

  /** No two sections of `s` share an id. */
  predicate IdsDistinct(s: seq<Section>) {
    forall i, j :: 0 <= i < j < |s| ==> s[i].id != s[j].id
  }

  /** The id type has exactly five values, each listed once. */
  lemma AllIdsComplete(id: SectionId)
    ensures id in AllIds
    ensures |AllIds| == 5
    ensures forall i, j :: 0 <= i < j < |AllIds| ==> AllIds[i] != AllIds[j]
  {
  }

  /** Distinct ids have distinct string values. */
  lemma IdTextInjective(a: SectionId, b: SectionId)
    ensures IdText(a) == IdText(b) ==> a == b
  {
  }

  /** The table holds five sections whose ids are the five ids, in declaration order. */
  lemma SectionOrder()
    ensures |Sections| == |AllIds|
    ensures forall i :: 0 <= i < |Sections| ==> Sections[i].id == AllIds[i]
  {
  }

  /** No two sections share an id. */
  lemma SectionIdsDistinct()
    ensures IdsDistinct(Sections)
  {
  }

  /** Every id is carried by exactly one section. */
  lemma {:induction false} EveryIdOnce(id: SectionId)
    ensures exists i :: 0 <= i < |Sections| && Sections[i].id == id
    ensures forall i, j :: 0 <= i < |Sections| && 0 <= j < |Sections| && Sections[i].id == id && Sections[j].id == id ==> i == j
  {
    SectionOrder();
    AllIdsComplete(id);
    SectionIdsDistinct();
    var k :| 0 <= k < |AllIds| && AllIds[k] == id;
    assert Sections[k].id == id;
  }

  /** The experience section lists three jobs, each with at least one bullet. */
  lemma ExperienceEntries()
    ensures Sections[2].content.experience.Some?
    ensures |Sections[2].content.experience.value| == 3
    ensures forall j :: j in Sections[2].content.experience.value ==> |j.bullets| > 0
  {
  }

  /** The contact section sets all five contact lines. */
  lemma ContactComplete()
    ensures Sections[4].content.contact.Some?
    ensures var c := Sections[4].content.contact.value;
            c.phone.Some? && c.email.Some? && c.linkedin.Some? && c.portfolio.Some? && c.address.Some?
  {
  }
}
