/** The mentor directory of the "browse" tab: the fixed mock list
    (components/MentorshipPage.tsx:34-59) and the specialty-and-search filter over it
    (119-126). The avatar is presentation only and is not modelled. */
module MentorDirectory {
  import opened JsText

  /** A mentor profile; `ratingTenths` is the decimal rating times ten (4.9 is 49). */
  datatype Mentor = Mentor(
    id: string, name: string, role: string, company: string, specialty: string,
    bio: string, experience: nat, ratingTenths: nat, tags: seq<string>)

  /** The directory, in display order. */
  const MockMentors: seq<Mentor> :=
    [
      Mentor("m1", "د. خالد العمري", "خبير نمو الشركات الناشئة", "GrowthOps Global", "Growth",
        "أكثر من ١٥ عاماً في مساعدة الشركات الناشئة على التوسع في الأسواق الخليجية وجذب الاستثمارات العالمية.",
        15, 49, ["التوسع", "التسويق الرقمي", "SaaS"]),
      Mentor("m2", "م. سارة القحطاني", "كبير مهندسي البرمجيات", "TechFlow", "Tech",
        "متخصصة في بناء البنية التحتية القابلة للتوسع وتطوير المنتجات الأولية (MVP).",
        10, 48, ["Cloud", "AI", "Full Stack"])
    ]

  /** The specialty filter value that disables the specialty test. */
  const AnySpecialty: string := "all"

  /** The filter values the specialty chips offer, in display order (12-19). */
  const SpecialtyFilters: seq<string> := ["all", "Tech", "Finance", "Growth", "Legal", "Strategy"]

  /** The specialty half of the filter: the chip is `all` or names the mentor's specialty. */
  predicate MatchesSpecialty(m: Mentor, filter: string) {
    filter == AnySpecialty || m.specialty == filter
  }

  /** The search half of the filter: the lowered query occurs in the lowered name or in
      the lowered role. `lower` stands for JavaScript's `toLowerCase`, left uninterpreted. */
  predicate MatchesSearch(m: Mentor, query: string, lower: string -> string) {
    Includes(lower(m.name), lower(query)) || Includes(lower(m.role), lower(query))
  }

  predicate Keeps(m: Mentor, filter: string, query: string, lower: string -> string) {
    MatchesSpecialty(m, filter) && MatchesSearch(m, query, lower)
  }

  /** `r` is `s` with some elements left out, in the original order. */
  predicate IsSubsequence<T(==)>(r: seq<T>, s: seq<T>)
    decreases |s|
  {
    r == [] || (s != [] && ((r[0] == s[0] && IsSubsequence(r[1..], s[1..])) || IsSubsequence(r, s[1..])))
  }

  /** `Array.prototype.filter` with the directory's predicate: exactly the mentors the
      filter keeps, in their original order, each as often as it occurs in `ms`. */
  function FilterMentors(ms: seq<Mentor>, filter: string, query: string, lower: string -> string): (r: seq<Mentor>)
    ensures IsSubsequence(r, ms)
    ensures forall i :: 0 <= i < |r| ==> Keeps(r[i], filter, query, lower)
    ensures forall i :: 0 <= i < |ms| && Keeps(ms[i], filter, query, lower) ==> ms[i] in r
    ensures forall m :: multiset(r)[m] == if Keeps(m, filter, query, lower) then multiset(ms)[m] else 0
  {
    if ms == [] then []
    else
      var rest := FilterMentors(ms[1..], filter, query, lower);
      assert ms == [ms[0]] + ms[1..];
      if Keeps(ms[0], filter, query, lower) then [ms[0]] + rest else rest
  }

  /** The list the browse tab shows for the current chip and search box. */
  function FilteredMentors(filter: string, query: string, lower: string -> string): (r: seq<Mentor>)
    ensures IsSubsequence(r, MockMentors)
    ensures forall m :: m in r <==> m in MockMentors && Keeps(m, filter, query, lower)
  {
    FilterMentors(MockMentors, filter, query, lower)
  }

  /** Filtering distributes over concatenation: together with the one-element case this
      pins the filter down completely. */
  lemma {:induction false} FilterAppend(a: seq<Mentor>, b: seq<Mentor>, filter: string, query: string, lower: string -> string)
    ensures FilterMentors(a + b, filter, query, lower)
         == FilterMentors(a, filter, query, lower) + FilterMentors(b, filter, query, lower)
  {
    if a != [] {
      assert (a + b)[1..] == a[1..] + b;
      FilterAppend(a[1..], b, filter, query, lower);
    } else {
      assert a + b == b;
    }
  }

  /** Filtering an already filtered list changes nothing. */
  lemma {:induction false} FilterIdempotent(ms: seq<Mentor>, filter: string, query: string, lower: string -> string)
    ensures var once := FilterMentors(ms, filter, query, lower);
            FilterMentors(once, filter, query, lower) == once
  {
    if ms != [] {
      FilterIdempotent(ms[1..], filter, query, lower);
      var rest := FilterMentors(ms[1..], filter, query, lower);
      if Keeps(ms[0], filter, query, lower) {
        assert ([ms[0]] + rest)[1..] == rest;
      }
    }
  }

  /** With the `all` chip and an empty search box every mentor is shown, in order
      (`toLowerCase` maps "" to ""). */
  lemma {:induction false} FilterShowsAll(ms: seq<Mentor>, lower: string -> string)
    requires lower("") == ""
    ensures FilterMentors(ms, AnySpecialty, "", lower) == ms
  {
    if ms != [] {
      FilterShowsAll(ms[1..], lower);
      assert Keeps(ms[0], AnySpecialty, "", lower) by {
        assert Includes(lower(ms[0].name), "");
      }
      assert FilterMentors(ms, AnySpecialty, "", lower) == [ms[0]] + FilterMentors(ms[1..], AnySpecialty, "", lower);
      assert [ms[0]] + ms[1..] == ms;
    }
  }

  /** With an empty search box, the filter of two mentors is decided by the chip alone. */
  lemma FilterPairEmptyQuery(a: Mentor, b: Mentor, filter: string, lower: string -> string)
    requires lower("") == ""
    ensures FilterMentors([a, b], filter, "", lower)
         == (if MatchesSpecialty(a, filter) then [a] else [])
          + (if MatchesSpecialty(b, filter) then [b] else [])
  {
    assert Includes(lower(a.name), "") && Includes(lower(b.name), "");
    assert [a, b][1..] == [b];
    assert [b][1..] == [];
  }

  /** With an empty search box, a growth mentor followed by a tech mentor: each chip
      shows exactly the mentors of its specialty. */
  lemma ChipsOnPair(a: Mentor, b: Mentor, lower: string -> string)
    requires lower("") == "" && a.specialty == "Growth" && b.specialty == "Tech"
    ensures FilterMentors([a, b], "Growth", "", lower) == [a]
    ensures FilterMentors([a, b], "Tech", "", lower) == [b]
    ensures FilterMentors([a, b], "Finance", "", lower) == []
    ensures FilterMentors([a, b], "Legal", "", lower) == []
    ensures FilterMentors([a, b], "Strategy", "", lower) == []
  {
    FilterPairEmptyQuery(a, b, "Growth", lower);
    FilterPairEmptyQuery(a, b, "Tech", lower);
    FilterPairEmptyQuery(a, b, "Finance", lower);
    FilterPairEmptyQuery(a, b, "Legal", lower);
    FilterPairEmptyQuery(a, b, "Strategy", lower);
  }

  /** With an empty search box each specialty chip shows exactly the directory's mentors
      of that specialty: one growth mentor, one tech mentor, and nobody under the other
      three chips. */
  lemma ChipsOnMockDirectory(lower: string -> string)
    requires lower("") == ""
    ensures FilteredMentors("Growth", "", lower) == [MockMentors[0]]
    ensures FilteredMentors("Tech", "", lower) == [MockMentors[1]]
    ensures FilteredMentors("Finance", "", lower) == []
    ensures FilteredMentors("Legal", "", lower) == []
    ensures FilteredMentors("Strategy", "", lower) == []
  {
    var a, b := MockMentors[0], MockMentors[1];
    assert MockMentors == [a, b];
    ChipsOnPair(a, b, lower);
  }
}
