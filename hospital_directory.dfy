/** The hospital directory page (client/src/components/Doctor.js): a fixed
    list of hospitals, the filter by specialty, the star rendering of a
    rating and the empty-result message. Distances and ratings, which have
    one decimal in the data, are kept in tenths. */
module HospitalDirectory {
  import opened Text

  datatype Hospital = Hospital(
    id: nat,
    name: string,
    specialties: seq<string>,
    address: string,
    distanceTenths: nat,
    ratingTenths: nat,
    phone: string)

  const Hospitals: seq<Hospital> := [
    Hospital(1, "City Medical Center", ["thyroid", "lung"],
      "123 Healthcare Ave, Medical District", 12, 45, "(555) 123-4567"),
    Hospital(2, "Neuroscience Institute", ["brain"],
      "456 Neurology Blvd, Research Park", 24, 48, "(555) 987-6543"),
    Hospital(3, "Pulmonary Care Hospital", ["lung"],
      "789 Respiratory Road, Health Zone", 8, 43, "(555) 234-5678"),
    Hospital(4, "Thyroid & Endocrine Center", ["thyroid"],
      "321 Hormone Highway, Care Complex", 31, 46, "(555) 876-5432"),
    Hospital(5, "Comprehensive Care Hospital", ["thyroid", "lung", "brain"],
      "555 Wellness Way, Treatment Town", 19, 47, "(555) 345-6789")
  ]

  /** The selection that shows every hospital. */
  const AllSpecialties: string := "all"

  /** `a` is `b` with some elements left out, in the same order. */
  predicate IsSubsequence<T(==)>(a: seq<T>, b: seq<T>)
    decreases |b|
  {
    a == [] ||
    (b != [] && ((a[0] == b[0] && IsSubsequence(a[1..], b[1..])) || IsSubsequence(a, b[1..])))
  }

  /** `hospitals.filter(h => h.specialty.includes(specialty))`. */
  function FilterBySpecialty(hs: seq<Hospital>, specialty: string): (r: seq<Hospital>)
    ensures |r| <= |hs|
  {
    if hs == [] then []
    else
      var rest := FilterBySpecialty(hs[1..], specialty);
      if specialty in hs[0].specialties then [hs[0]] + rest else rest
  }

  /** The filter keeps exactly the hospitals with the specialty. */
  lemma {:induction false} FilterMembers(hs: seq<Hospital>, specialty: string)
    ensures forall h :: h in FilterBySpecialty(hs, specialty) <==> h in hs && specialty in h.specialties
  {
    if hs != [] {
      FilterMembers(hs[1..], specialty);
      assert forall h :: h in hs <==> h == hs[0] || h in hs[1..];
    }
  }

  /** The filter keeps the order of the list it filters. */
  lemma {:induction false} FilterIsSubsequence(hs: seq<Hospital>, specialty: string)
    ensures IsSubsequence(FilterBySpecialty(hs, specialty), hs)
  {
    if hs != [] {
      FilterIsSubsequence(hs[1..], specialty);
      var rest := FilterBySpecialty(hs[1..], specialty);
      if specialty in hs[0].specialties {
        assert ([hs[0]] + rest)[1..] == rest;
      }
    }
  }

  /** `filteredHospitals` for the selected specialty. */
  function FilteredHospitals(selected: string): seq<Hospital> {
    if selected == AllSpecialties then Hospitals else FilterBySpecialty(Hospitals, selected)
  }

  /** 'all' shows the whole list; any other selection shows, in order,
      exactly the hospitals with that specialty. */
  lemma FilteredHospitalsMeaning(selected: string)
    ensures selected == AllSpecialties ==> FilteredHospitals(selected) == Hospitals
    ensures selected != AllSpecialties ==>
      forall h :: h in FilteredHospitals(selected) <==> h in Hospitals && selected in h.specialties
    ensures IsSubsequence(FilteredHospitals(selected), Hospitals)
  {
    if selected == AllSpecialties {
      SubsequenceOfItself(Hospitals);
    } else {
      FilterMembers(Hospitals, selected);
      FilterIsSubsequence(Hospitals, selected);
    }
  }

  lemma {:induction false} SubsequenceOfItself<T>(a: seq<T>)
    ensures IsSubsequence(a, a)
    decreases |a|
  {
    if a != [] {
      SubsequenceOfItself(a[1..]);
    }
  }

  function Ids(hs: seq<Hospital>): (ids: seq<nat>)
    ensures |ids| == |hs|
    ensures forall i :: 0 <= i < |hs| ==> ids[i] == hs[i].id
  {
    if hs == [] then [] else [hs[0].id] + Ids(hs[1..])
  }

  /** The three specialty buttons over the fixed data. */
  lemma FilterOverTheData()
    ensures Ids(FilteredHospitals("thyroid")) == [1, 4, 5]
    ensures Ids(FilteredHospitals("lung")) == [1, 3, 5]
    ensures Ids(FilteredHospitals("brain")) == [2, 5]
  {
    ThyroidButton();
    LungButton();
    BrainButton();
  }

  lemma ThyroidButton()
    ensures Ids(FilteredHospitals("thyroid")) == [1, 4, 5]
  {
    assert "thyroid" != AllSpecialties && "thyroid" != "lung" && "thyroid" != "brain";
    assert "thyroid" !in Hospitals[1].specialties && "thyroid" !in Hospitals[2].specialties;
  }

  lemma LungButton()
    ensures Ids(FilteredHospitals("lung")) == [1, 3, 5]
  {
    assert "lung" != AllSpecialties && "lung" != "thyroid" && "lung" != "brain";
    assert "lung" !in Hospitals[1].specialties && "lung" !in Hospitals[3].specialties;
  }

  lemma BrainButton()
    ensures Ids(FilteredHospitals("brain")) == [2, 5]
  {
    assert "brain" != AllSpecialties && "brain" != "thyroid" && "brain" != "lung";
    assert "brain" !in Hospitals[0].specialties && "brain" !in Hospitals[2].specialties;
    assert "brain" !in Hospitals[3].specialties;
  }

  /** `Math.floor(rating)` for a rating in tenths. */
  function FullStars(ratingTenths: nat): (n: nat)
    ensures n * 10 <= ratingTenths < (n + 1) * 10
  {
    ratingTenths / 10
  }

  /** `rating % 1 >= 0.5` for a rating in tenths. */
  function HasHalfStar(ratingTenths: nat): (b: bool)
    ensures b <==> ratingTenths - FullStars(ratingTenths) * 10 >= 5
  {
    ratingTenths % 10 >= 5
  }

  /** Stars never overstate a rating, and understate it by less than one
      half star. */
  lemma StarsApproximateRating(ratingTenths: nat)
    ensures var shown := FullStars(ratingTenths) * 10 + (if HasHalfStar(ratingTenths) then 5 else 0);
      shown <= ratingTenths < shown + 5
  {
  }

  /** The stars of the listed hospitals: four full stars each, with a half
      star for every rating but 4.3. */
  lemma StarsOverTheData()
    ensures forall i :: 0 <= i < |Hospitals| ==> FullStars(Hospitals[i].ratingTenths) == 4
    ensures forall i :: 0 <= i < |Hospitals| ==> (HasHalfStar(Hospitals[i].ratingTenths) <==> Hospitals[i].id != 3)
  {
  }

  /** `spec.charAt(0).toUpperCase() + spec.slice(1)`. */
  function SpecialtyTag(spec: string): (tag: string)
    ensures |tag| == |spec|
    ensures spec != [] ==> tag[0] == UpperChar(spec[0]) && tag[1..] == spec[1..]
  {
    if spec == [] then [] else [UpperChar(spec[0])] + spec[1..]
  }

  /** The empty-result message shows exactly when no hospital is listed. */
  predicate NoResultsShown(selected: string) {
    |FilteredHospitals(selected)| == 0
  }

  /** The message shows exactly for a selection other than 'all' that no
      hospital offers, so never for one of the four buttons. */
  lemma NoResultsMeaning(selected: string)
    ensures NoResultsShown(selected) <==>
      selected != AllSpecialties && forall h :: h in Hospitals ==> selected !in h.specialties
    ensures selected in [AllSpecialties, "thyroid", "lung", "brain"] ==> !NoResultsShown(selected)
  {
    if selected != AllSpecialties {
      FilterMembers(Hospitals, selected);
      var r := FilterBySpecialty(Hospitals, selected);
      if r != [] {
        assert r[0] in r;
      }
    }
    if selected in ["thyroid", "lung", "brain"] {
      assert Hospitals[4] in Hospitals;
      assert selected in Hospitals[4].specialties;
      assert Hospitals[4] in FilterBySpecialty(Hospitals, selected);
    }
  }
}
