/**
 * The Beneficiary Management page (pages/Beneficiaries.tsx): the gender,
 * age-bucket and province breakdowns, and the registration form's guard
 * and defaults.
 */
module Beneficiaries {
  import opened Wrappers
  import opened Types
  import opened Seqs

  predicate IsFemale(b: Beneficiary) { b.gender == Female }
  predicate IsMale(b: Beneficiary) { b.gender == Male }
  predicate IsNonBinary(b: Beneficiary) { b.gender == NonBinary }

  /** Every beneficiary has exactly one of the three genders, so the three counts add up to the total. */
  lemma {:induction false} GenderCountsPartition(s: seq<Beneficiary>)
    ensures Count(s, IsFemale) + Count(s, IsMale) + Count(s, IsNonBinary) == |s|
  {
    if s != [] {
      GenderCountsPartition(s[1..]);
    }
  }

  /** A labelled count, as charted. */
  datatype Bucket = Bucket(name: string, value: nat)

  /**
   * The gender pie: exact "Female" and "Male" matches only, so that
   * non-binary beneficiaries are in neither slice.
   */
  function GenderChart(s: seq<Beneficiary>): (r: seq<Bucket>)
    ensures |r| == 2 && r[0].name == "Female" && r[1].name == "Male"
    ensures r[0].value == Count(s, IsFemale) && r[1].value == Count(s, IsMale)
    ensures r[0].value + r[1].value == |s| - Count(s, IsNonBinary)
  {
    GenderCountsPartition(s);
    [Bucket("Female", Count(s, IsFemale)), Bucket("Male", Count(s, IsMale))]
  }

  /** Three women and one man chart as three and one. */
  lemma GenderChartOfThreeWomenAndOneMan(w: Beneficiary, m: Beneficiary)
    requires w.gender == Female && m.gender == Male
    ensures GenderChart([w, w, w, m]) == [Bucket("Female", 3), Bucket("Male", 1)]
  {
    var s := [w, w, w, m];
    assert s[1..] == [w, w, m] && s[1..][1..] == [w, m] && s[1..][1..][1..] == [m] && [m][1..] == [];
    assert Filter([m], IsFemale) == [] && Filter([m], IsMale) == [m];
    assert Filter([w, m], IsFemale) == [w] && Filter([w, m], IsMale) == [m];
    assert Filter([w, w, m], IsFemale) == [w, w] && Filter([w, w, m], IsMale) == [m];
  }

  /** Registering a non-binary beneficiary leaves both bars of the gender chart as they were. */
  lemma NonBinaryInNeitherBar(s: seq<Beneficiary>, n: Beneficiary)
    requires n.gender == NonBinary
    ensures GenderChart(s + [n]) == GenderChart(s)
  {
    FilterConcat(s, [n], IsFemale);
    FilterConcat(s, [n], IsMale);
    assert [n][1..] == [];
  }

  predicate Under18(b: Beneficiary) { b.age < 18 }
  predicate From18To35(b: Beneficiary) { b.age >= 18 && b.age <= 35 }
  predicate From36To50(b: Beneficiary) { b.age > 35 && b.age <= 50 }
  predicate Over50(b: Beneficiary) { b.age > 50 }

  /** Every age falls in exactly one bucket. */
  lemma AgeBucketsDisjointAndCovering(b: Beneficiary)
    ensures Under18(b) || From18To35(b) || From36To50(b) || Over50(b)
    ensures !(Under18(b) && From18To35(b)) && !(Under18(b) && From36To50(b)) && !(Under18(b) && Over50(b))
    ensures !(From18To35(b) && From36To50(b)) && !(From18To35(b) && Over50(b)) && !(From36To50(b) && Over50(b))
  {
  }

  lemma {:induction false} AgeCountsPartition(s: seq<Beneficiary>)
    ensures Count(s, Under18) + Count(s, From18To35) + Count(s, From36To50) + Count(s, Over50) == |s|
  {
    if s != [] {
      AgeCountsPartition(s[1..]);
    }
  }

  /** The age chart: four buckets, <18, 18-35, 36-50 and 50+, whose counts add up to the total. */
  function AgeChart(s: seq<Beneficiary>): (r: seq<Bucket>)
    ensures |r| == 4
    ensures r[0].name == "<18" && r[1].name == "18-35" && r[2].name == "36-50" && r[3].name == "50+"
    ensures r[0].value == Count(s, Under18) && r[1].value == Count(s, From18To35)
    ensures r[2].value == Count(s, From36To50) && r[3].value == Count(s, Over50)
    ensures r[0].value + r[1].value + r[2].value + r[3].value == |s|
  {
    AgeCountsPartition(s);
    [Bucket("<18", Count(s, Under18)), Bucket("18-35", Count(s, From18To35)),
     Bucket("36-50", Count(s, From36To50)), Bucket("50+", Count(s, Over50))]
  }

  // ---------------------------------------------------- province tally

  function FromProvince(p: Province): Beneficiary -> bool { (b: Beneficiary) => b.province == p }

  datatype ProvinceCount = ProvinceCount(province: Province, count: nat)

  predicate DistinctProvinces(t: seq<ProvinceCount>)
  {
    forall i, j :: 0 <= i < j < |t| ==> t[i].province != t[j].province
  }

  predicate Listed(t: seq<ProvinceCount>, p: Province)
  {
    exists i :: 0 <= i < |t| && t[i].province == p
  }

  /** The count a tally holds for a province, 0 when it is not listed. */
  function CountFor(t: seq<ProvinceCount>, p: Province): nat
  {
    if t == [] then 0 else (if t[0].province == p then t[0].count else 0) + CountFor(t[1..], p)
  }

  function TallyTotal(t: seq<ProvinceCount>): nat
  {
    if t == [] then 0 else t[0].count + TallyTotal(t[1..])
  }

  /**
   * `acc[p] = (acc[p] || 0) + 1`: entries keep their places, and either one
   * of them goes up or a new entry for the province is appended with count 1.
   */
  function Bump(t: seq<ProvinceCount>, p: Province): (r: seq<ProvinceCount>)
    ensures |r| == |t| || (|r| == |t| + 1 && r[|t|] == ProvinceCount(p, 1))
    ensures forall i :: 0 <= i < |t| ==> r[i].province == t[i].province
    ensures Listed(r, p)
  {
    if t == [] then [ProvinceCount(p, 1)]
    else if t[0].province == p then [t[0].(count := t[0].count + 1)] + t[1..]
    else [t[0]] + Bump(t[1..], p)
  }

  lemma {:induction false} BumpCounts(t: seq<ProvinceCount>, p: Province, q: Province)
    ensures CountFor(Bump(t, p), q) == CountFor(t, q) + (if p == q then 1 else 0)
  {
    if t != [] && t[0].province != p {
      BumpCounts(t[1..], p, q);
    }
  }

  lemma {:induction false} BumpTotal(t: seq<ProvinceCount>, p: Province)
    ensures TallyTotal(Bump(t, p)) == TallyTotal(t) + 1
  {
    if t != [] && t[0].province != p {
      BumpTotal(t[1..], p);
    }
  }

  /** A province is listed in a non-empty tally when it heads it or is listed in the rest. */
  lemma ListedUnfold(t: seq<ProvinceCount>, q: Province)
    requires t != []
    ensures Listed(t, q) <==> t[0].province == q || Listed(t[1..], q)
  {
  }

  lemma {:induction false} BumpListed(t: seq<ProvinceCount>, p: Province, q: Province)
    ensures Listed(Bump(t, p), q) <==> Listed(t, q) || q == p
  {
    var r := Bump(t, p);
    ListedUnfold(r, q);
    if t == [] {
      assert !Listed(t, q);
    } else if t[0].province == p {
      ListedUnfold(t, q);
      assert r[1..] == t[1..];
    } else {
      ListedUnfold(t, q);
      assert r[1..] == Bump(t[1..], p);
      BumpListed(t[1..], p, q);
    }
  }

  lemma {:induction false} BumpKeepsDistinct(t: seq<ProvinceCount>, p: Province)
    requires DistinctProvinces(t)
    ensures DistinctProvinces(Bump(t, p))
  {
    var r := Bump(t, p);
    if t == [] {
    } else if t[0].province == p {
      assert forall i :: 0 < i < |t| ==> r[i] == t[i];
    } else {
      BumpKeepsDistinct(t[1..], p);
      forall j | 0 < j < |r| ensures r[0].province != r[j].province {
        var q := r[j].province;
        assert r[1..][j - 1].province == q;
        BumpListed(t[1..], p, q);
        if q != p {
          var i :| 0 <= i < |t| - 1 && t[1..][i].province == q;
          assert t[i + 1].province == q;
        }
      }
    }
  }

  lemma {:induction false} BumpKeepsPositive(t: seq<ProvinceCount>, p: Province)
    requires forall i :: 0 <= i < |t| ==> t[i].count >= 1
    ensures forall i :: 0 <= i < |Bump(t, p)| ==> Bump(t, p)[i].count >= 1
  {
    if t != [] && t[0].province != p {
      BumpKeepsPositive(t[1..], p);
      var r := Bump(t, p);
      assert forall i :: 1 <= i < |r| ==> r[i] == Bump(t[1..], p)[i - 1];
    }
  }

  /** In a tally without repeated provinces, an entry's count is the province's count. */
  lemma {:induction false} CountForListed(t: seq<ProvinceCount>, i: nat)
    requires DistinctProvinces(t) && i < |t|
    ensures CountFor(t, t[i].province) == t[i].count
  {
    if i == 0 {
      CountForUnlisted(t[1..], t[0].province);
    } else {
      assert t[1..][i - 1] == t[i];
      CountForListed(t[1..], i - 1);
    }
  }

  lemma {:induction false} CountForUnlisted(t: seq<ProvinceCount>, p: Province)
    requires forall i :: 0 <= i < |t| ==> t[i].province != p
    ensures CountFor(t, p) == 0
  {
    if t != [] {
      CountForUnlisted(t[1..], p);
    }
  }

  /**
   * `byProvince`: one entry per province that has beneficiaries, none for
   * the others, each with that province's number of beneficiaries; the
   * counts add up to the total.
   */
  function ProvinceTally(s: seq<Beneficiary>): (r: seq<ProvinceCount>)
    ensures DistinctProvinces(r)
    ensures forall p :: Listed(r, p) <==> exists b :: b in s && b.province == p
    ensures forall p :: CountFor(r, p) == Count(s, FromProvince(p))
    ensures forall i :: 0 <= i < |r| ==> r[i].count >= 1
    ensures TallyTotal(r) == |s|
  {
    if s == [] then []
    else
      var init, last := s[..|s| - 1], s[|s| - 1];
      assert s == init + [last];
      var t := ProvinceTally(init);
      BumpKeepsDistinct(t, last.province);
      BumpKeepsPositive(t, last.province);
      BumpTotal(t, last.province);
      forall p ensures Listed(Bump(t, last.province), p) <==> exists b :: b in s && b.province == p {
        BumpListed(t, last.province, p);
      }
      forall p ensures CountFor(Bump(t, last.province), p) == Count(s, FromProvince(p)) {
        BumpCounts(t, last.province, p);
        FilterConcat(init, [last], FromProvince(p));
      }
      Bump(t, last.province)
  }

  /** Each listed province carries exactly its number of beneficiaries. */
  lemma TallyEntriesCount(s: seq<Beneficiary>, i: nat)
    requires i < |ProvinceTally(s)|
    ensures ProvinceTally(s)[i].count == Count(s, FromProvince(ProvinceTally(s)[i].province))
  {
    CountForListed(ProvinceTally(s), i);
  }

  // ------------------------------------------------------ registration

  /**
   * The registration form: refused without a name; an empty activity
   * becomes "N/A"; every other field is taken as entered.
   */
  function NewBeneficiary(id: string, name: string, gender: Gender, age: int, province: Province,
                          role: Role, activityAttended: string): (r: Option<Beneficiary>)
    ensures r.Some? <==> name != ""
    ensures r.Some? ==>
      && r.value.id == id && r.value.name == name && r.value.gender == gender && r.value.age == age
      && r.value.province == province && r.value.role == role
      && r.value.activityAttended == (if activityAttended == "" then "N/A" else activityAttended)
      && r.value.activityAttended != ""
  {
    if name == "" then None
    else Some(Beneficiary(id, name, gender, age, province, role, if activityAttended == "" then "N/A" else activityAttended))
  }

  /** Registering someone (newest first) adds one to exactly their gender's count and their age bucket's count. */
  lemma RegistrationCounts(s: seq<Beneficiary>, b: Beneficiary)
    ensures Count([b] + s, IsFemale) == Count(s, IsFemale) + (if b.gender == Female then 1 else 0)
    ensures Count([b] + s, IsMale) == Count(s, IsMale) + (if b.gender == Male then 1 else 0)
    ensures Count([b] + s, IsNonBinary) == Count(s, IsNonBinary) + (if b.gender == NonBinary then 1 else 0)
    ensures Count([b] + s, Under18) == Count(s, Under18) + (if b.age < 18 then 1 else 0)
    ensures Count([b] + s, From18To35) == Count(s, From18To35) + (if 18 <= b.age <= 35 then 1 else 0)
    ensures Count([b] + s, From36To50) == Count(s, From36To50) + (if 35 < b.age <= 50 then 1 else 0)
    ensures Count([b] + s, Over50) == Count(s, Over50) + (if b.age > 50 then 1 else 0)
  {
  }
}
