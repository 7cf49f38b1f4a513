/** One user-side analysis run: from the extracted resume to the record that
    is stored, composing the level, the classifier, the course recommender
    and the score. */
module Analyser {
  import opened Optional
  import opened Classifier
  import opened Scorer
  import opened Level
  import opened Courses

  /** What the resume parser and the PDF reader hand over: a missing name or
      email is the empty string, a missing skill list the empty list; the page
      count may be missing. */
  datatype ExtractedResume = ExtractedResume(
    name: string,
    email: string,
    pageCount: Option<int>,
    skills: seq<string>,
    text: string)

  /** The page count, 1 when the parser did not report one. */
  function Pages(resume: ExtractedResume): int {
    match resume.pageCount
    case Some(p) => p
    case None => 1
  }

  /** The values handed to the database for one resume (the timestamp aside). */
  datatype AnalysisRecord = AnalysisRecord(
    name: string,
    email: string,
    score: nat,
    pages: int,
    field: string,
    level: string,
    skills: seq<string>,
    recommendedSkills: seq<string>,
    courses: seq<string>)

  /** The five course lists, one per track; each is shuffled in place when
      its track is recommended, so the order persists from run to run. */
  class CourseCatalog {
    const dataScience: array<Course>
    const web: array<Course>
    const android: array<Course>
    const ios: array<Course>
    const uiux: array<Course>

    /** The five lists are five different objects. */
    predicate Valid() {
      dataScience != web && dataScience != android && dataScience != ios && dataScience != uiux &&
      web != android && web != ios && web != uiux &&
      android != ios && android != uiux &&
      ios != uiux
    }

    ghost function Repr(): set<object> {
      {dataScience, web, android, ios, uiux}
    }

    constructor (dataScience: array<Course>, web: array<Course>, android: array<Course>,
                 ios: array<Course>, uiux: array<Course>)
      requires dataScience != web && dataScience != android && dataScience != ios && dataScience != uiux
      requires web != android && web != ios && web != uiux
      requires android != ios && android != uiux && ios != uiux
      ensures Valid()
      ensures this.dataScience == dataScience && this.web == web && this.android == android
      ensures this.ios == ios && this.uiux == uiux
    {
      this.dataScience := dataScience;
      this.web := web;
      this.android := android;
      this.ios := ios;
      this.uiux := uiux;
    }

    /** The course list recommended for a track. */
    function For(t: Track): (a: array<Course>)
      ensures a in Repr()
    {
      match t
      case DataScience => dataScience
      case WebDevelopment => web
      case AndroidDevelopment => android
      case IOSDevelopment => ios
      case UIUXDevelopment => uiux
    }

    lemma ForIsInjective(t: Track, u: Track)
      requires Valid() && t != u
      ensures For(t) != For(u)
    {
    }
  }

  /** What the `recommend` closure of the winning track leaves behind, or
      the initial empty values when no track matched: the field name, the
      fixed skill list and the names of the first `n` courses of the track's
      catalog, shuffled in place; no other catalog changes. */
  twostate predicate RecommendsFor(track: Option<Track>, catalog: CourseCatalog, n: nat, draws: seq<nat>,
                                   field: string, recommendedSkills: seq<string>, courses: seq<string>)
    requires forall t :: ValidDraws(draws, catalog.For(t).Length)
    reads catalog.Repr()
  {
    match track
    case None =>
      && field == "" && recommendedSkills == [] && courses == []
      && forall u :: catalog.For(u)[..] == old(catalog.For(u)[..])
    case Some(t) =>
      var list := catalog.For(t);
      && field == FieldName(t)
      && recommendedSkills == RecommendedSkills(t)
      && list[..] == Shuffled(old(list[..]), draws, list.Length)
      && courses == Names(list[..])[..Min(n, list.Length)]
      && forall u :: u != t ==> catalog.For(u)[..] == old(catalog.For(u)[..])
  }

  /** The `recommend` closure applied to the classification. */
  method Recommend(track: Option<Track>, catalog: CourseCatalog, n: nat, draws: seq<nat>)
    returns (field: string, recommendedSkills: seq<string>, courses: seq<string>)
    requires catalog.Valid()
    requires forall t :: ValidDraws(draws, catalog.For(t).Length)
    modifies catalog.Repr()
    ensures RecommendsFor(track, catalog, n, draws, field, recommendedSkills, courses)
  {
    field, recommendedSkills, courses := "", [], [];
    if track.Some? {
      field := FieldName(track.value);
      recommendedSkills := RecommendedSkills(track.value);
      forall u | u != track.value ensures catalog.For(u) != catalog.For(track.value) {
        catalog.ForIsInjective(u, track.value);
      }
      courses := CourseRecommender(catalog.For(track.value), draws, n);
    }
  }

  /** The analysis of one resume, in the order the page runs it: the level
      from the page count, the first matching track with its skills and its
      shuffled courses, then the score. Only the chosen track's course list
      is shuffled; the skill list is stored as extracted, not lower-cased. */
  method Analyse(resume: ExtractedResume, catalog: CourseCatalog, n: nat, draws: seq<nat>)
    returns (record: AnalysisRecord)
    requires catalog.Valid()
    requires forall t :: ValidDraws(draws, catalog.For(t).Length)
    modifies catalog.Repr()
    ensures record.name == resume.name && record.email == resume.email
    ensures record.pages == Pages(resume) && record.level == CandidateLevel(Pages(resume))
    ensures record.score == ResumeScore(resume.text)
    ensures record.skills == resume.skills
    ensures RecommendsFor(Classify(resume.skills), catalog, n, draws,
                          record.field, record.recommendedSkills, record.courses)
  {
    var pages := Pages(resume);
    var level := CandidateLevel(pages);
    var field, recommendedSkills, courses := Recommend(Classify(resume.skills), catalog, n, draws);
    var score := ScoreResume(resume.text);
    record := AnalysisRecord(resume.name, resume.email, score, pages, field, level,
                             resume.skills, recommendedSkills, courses);
  }
}
