/**
 * The `ndl_search_by_subject` tool: a subject query (two subject clauses
 * joined by OR when an additional subject is given) and the ranking of its
 * records by the subject words their titles carry.
 */
module SearchBySubject {
  import opened JsText
  import opened SeqUtils
  import SearchNdl

  /** The CQL: `subject="S"`, and `OR subject="<trimmed additional>"` when that is not blank. */
  function BuildCql(subject: string, additional: string): (r: string)
    ensures Trim(additional) == "" ==> r == "subject=\"" + subject + "\""
    ensures Trim(additional) != "" ==> r == "subject=\"" + subject + "\" OR subject=\"" + Trim(additional) + "\""
  {
    if Trim(additional) != "" then "subject=\"" + subject + "\" OR subject=\"" + Trim(additional) + "\""
    else "subject=\"" + subject + "\""
  }

  /** Surrounding white space of the additional subject never reaches the query. */
  lemma CqlIgnoresSurroundingSpace(subject: string, additional: string)
    ensures BuildCql(subject, additional) == BuildCql(subject, Trim(additional))
  {
    TrimIdempotent(additional);
  }

  /**
   * The comparator's score of one record: 20 when an additional subject is
   * given and the title holds both, 10 for the subject, 8 for the
   * additional subject, 5 for a study, 3 for a collected works, 2 for a
   * volume number. Titles and terms are compared lower-cased.
   */
  function SubjectScore(rec: SearchNdl.NdlRecord, subject: string, additional: string): (r: int)
    ensures 0 <= r <= 48
    ensures (additional != "" && Includes(ToLower(rec.title), ToLower(subject))
             && Includes(ToLower(rec.title), ToLower(additional))) ==> r >= 38
    ensures !Includes(ToLower(rec.title), ToLower(subject)) ==> r <= 18
    ensures additional == "" ==> r <= 20
  {
    var t := ToLower(rec.title);
    var s := ToLower(subject);
    var a := ToLower(additional);
    (if additional != "" && Includes(t, s) && Includes(t, a) then 20 else 0)
    + (if Includes(t, s) then 10 else 0)
    + (if additional != "" && Includes(t, a) then 8 else 0)
    + (if Includes(t, "研究") || Includes(t, "史料") || Includes(t, "考察") then 5 else 0)
    + (if Includes(t, "全集") || Includes(t, "大系") || Includes(t, "選集") then 3 else 0)
    + (if HasVolumeMark(t) then 2 else 0)
  }

  function SubjectKey(subject: string, additional: string): SearchNdl.NdlRecord -> int {
    (rec: SearchNdl.NdlRecord) => SubjectScore(rec, subject, additional)
  }

  /** `sortBySubjectRelevance`: the caller's array, sorted in place by descending score. */
  method SortBySubjectRelevance(a: array<SearchNdl.NdlRecord>, subject: string, additional: string)
    modifies a
    ensures a[..] == SortDesc(old(a[..]), SubjectKey(subject, additional))
  {
    SortDescInPlace(a, SubjectKey(subject, additional));
  }

  /**
   * After the sort, every record whose title names both subjects comes
   * before every record whose title does not name the main subject.
   */
  lemma BothSubjectsBeforeOthers(records: seq<SearchNdl.NdlRecord>, subject: string, additional: string, i: nat, j: nat)
    requires additional != ""
    requires i < j < |SortDesc(records, SubjectKey(subject, additional))|
    requires var s := SortDesc(records, SubjectKey(subject, additional));
      Includes(ToLower(s[j].title), ToLower(subject)) && Includes(ToLower(s[j].title), ToLower(additional))
    ensures var s := SortDesc(records, SubjectKey(subject, additional));
      Includes(ToLower(s[i].title), ToLower(subject))
  {
    var key := SubjectKey(subject, additional);
    var s := SortDesc(records, key);
    SortDescSorted(records, key);
    assert key(s[i]) >= key(s[j]);
  }
}
