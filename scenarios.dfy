/** Concrete cases of the courier selection and the tier ladder. */
module Scenarios {
  import opened Wrappers
  import opened JsSemantics
  import opened Couriers

  /** 3, 6, 10, 20 and 50 hours fall in the quick, quick, express, fast and
      standard tiers; 50 hours reads "3 days". */
  lemma LadderExamples()
    ensures Classify(3, None) == Eta("2-4 hours", "Same Day (2-4 hours)", Quick, true)
    ensures Classify(6, None) == Eta("4-8 hours", "Same Day (4-8 hours)", Quick, true)
    ensures Classify(10, None) == Eta("Same Day", "Same Day Delivery", Express, true)
    ensures Classify(20, None) == Eta("Next Day", "Next Day Delivery", Fast, false)
    ensures Classify(50, None) == Eta("3 days", "Delivery in 3 days", Standard, false)
    ensures Classify(50, Some("4-5 days")).etdText == "4-5 days"
  {
  }

  /** A courier without an ETA is classified at 48 hours: "2 days", standard. */
  lemma MissingEtaIsTwoDays(c: Courier)
    requires !TruthyNumber(c.etdHours)
    ensures Decide([c]).deliveryTime == "2 days"
    ensures Decide([c]).serviceType == "standard"
    ensures !Decide([c]).isHyperlocal
  {
  }

  /** A fragment holding a character that `s` lacks cannot occur in `s`. */
  lemma MissingCharExcludes(s: string, fragment: string, c: char)
    requires c in fragment && c !in s
    ensures !Includes(s, fragment)
  {
  }

  /** A courier whose lower-cased name lacks the letters s, z, o, f, w, p, h
      and c holds none of the provider fragments. */
  lemma NoFragmentWithoutKeyLetters(c: Courier)
    requires forall k :: 0 <= k < |SearchName(c)| ==> SearchName(c)[k] !in "szofwphc"
    ensures !IsHyperlocalProvider(c)
  {
    var name := SearchName(c);
    forall i | 0 <= i < |HYPERLOCAL_FRAGMENTS|
      ensures !Includes(name, HYPERLOCAL_FRAGMENTS[i])
    {
      var f := HYPERLOCAL_FRAGMENTS[i];
      var ch := if i == 0 then 's' else if i in {1, 2} then 'z' else if i in {3, 5} then 'o'
        else if i == 4 then 'f' else if i in {6, 8} then 'p' else if i == 7 then 'w'
        else if i == 9 then 'h' else 'c';
      assert ch in f;
      assert ch in "szofwphc";
      MissingCharExcludes(name, f, ch);
    }
  }

  lemma BlueDartSearchName(c: Courier)
    requires c.name == Some("BlueDart")
    ensures SearchName(c) == "bluedart"
  {
  }

  lemma BlueDartLetters(name: string)
    requires name == "bluedart"
    ensures forall k :: 0 <= k < |name| ==> name[k] !in "szofwphc"
  {
  }

  /** "BlueDart" contains none of the provider fragments. */
  lemma BlueDartIsNoProvider(c: Courier)
    requires c.name == Some("BlueDart")
    ensures !IsHyperlocalProvider(c)
  {
    BlueDartSearchName(c);
    BlueDartLetters(SearchName(c));
    NoFragmentWithoutKeyLetters(c);
  }

  /** "Shadowfax Quick" is recognised by its name. */
  lemma ShadowfaxIsProvider(c: Courier)
    requires c.name == Some("Shadowfax Quick")
    ensures IsHyperlocalProvider(c)
  {
    var name := SearchName(c);
    var fragment := HYPERLOCAL_FRAGMENTS[0];
    assert fragment == "shadowfax";
    forall i | 0 <= i < |fragment|
      ensures name[i] == fragment[i]
    {
      assert name[i] == LowerChar("Shadowfax Quick"[i]);
    }
    assert OccursAt(name, fragment, 0);
    IncludesAt(name, fragment);
  }

  /** A provider recognised by name wins over an earlier courier with the same
      30-hour ETA, whatever their other fields. */
  lemma NameBeatsListOrder(blue: Courier, fax: Courier)
    requires blue.name == Some("BlueDart") && blue.etdHours == Some(30)
    requires fax.name == Some("Shadowfax Quick") && fax.etdHours == Some(30)
    ensures Selected([blue, fax]) == fax
  {
    BlueDartIsNoProvider(blue);
    ShadowfaxIsProvider(fax);
    var cs := [blue, fax];
    assert !IsQuick(cs[0]) && IsQuick(cs[1]);
    SelectionIsFirstMatch(cs);
  }

  /** With BlueDart alone there is no quick courier: it is selected, in the standard tier. */
  lemma LoneSlowCourierIsStandard(blue: Courier)
    requires blue.name == Some("BlueDart") && blue.etdHours == Some(30)
    ensures Selected([blue]) == blue
    ensures Decide([blue]).serviceType == "standard"
    ensures Decide([blue]).hyperlocalCouriers == 0
  {
    BlueDartIsNoProvider(blue);
  }

  /** A single status-200 courier at 4 hours and a freight charge of 60 gives a
      quick, hyperlocal, two-to-four-hour delivery for 60. */
  lemma FourHourCourierEndToEnd()
    ensures Evaluate(Some(Payload(Some(200), Some(PayloadData(Some([
      Courier(Some("Shadowfax"), Some(7), Some(4), None, Some(60), None)])))))) ==
      Ok(Quote("2-4 hours", 60, Some("Shadowfax"), Some(7), "Same Day (2-4 hours)", true, "quick", 4, 1, 1))
  {
  }
}
