/** Azure resource ids. `azure.ParseResourceID` is a library function outside the repository; it is
  * modelled on ids of nine segments, with the keywords in any letter case.
  */
module ResourceId {
  import opened Wrappers
  import opened Text

  datatype Resource = Resource(
    subscriptionId: string, resourceGroup: string, provider: string, resourceType: string, resourceName: string)

  function Segments(r: Resource): seq<string> {
    ["", "subscriptions", r.subscriptionId, "resourceGroups", r.resourceGroup,
     "providers", r.provider, r.resourceType, r.resourceName]
  }

  // Resource.String.
  function Print(r: Resource): string { Join(Segments(r), '/') }

  predicate Segment(s: string) { s != "" && Free(s, '/') }

  predicate WellFormed(r: Resource) {
    Segment(r.subscriptionId) && Segment(r.resourceGroup) && Segment(r.provider)
    && Segment(r.resourceType) && Segment(r.resourceName)
  }

  function Parse(id: string): Result<Resource, string> {
    var p := Split(id, '/');
    if |p| == 9 && p[0] == ""
       && EqualFold(p[1], "subscriptions") && EqualFold(p[3], "resourceGroups") && EqualFold(p[5], "providers")
       && p[2] != "" && p[4] != "" && p[6] != "" && p[7] != "" && p[8] != ""
    then Ok(Resource(p[2], p[4], p[6], p[7], p[8]))
    else Err(id)
  }

  // The keywords are spelled as Print spells them.
  predicate Canonical(id: string) {
    var p := Split(id, '/');
    |p| == 9 && p[1] == "subscriptions" && p[3] == "resourceGroups" && p[5] == "providers"
  }

  /** Parsing a printed resource gives it back. */
  lemma ParsePrint(r: Resource)
    requires WellFormed(r)
    ensures Parse(Print(r)) == Ok(r) && Canonical(Print(r))
  {
    SplitJoin(Segments(r), '/');
  }

  // An id with these keywords in the places where ids have them.
  function Spelled(r: Resource, a: string, b: string, c: string): string {
    Join(["", a, r.subscriptionId, b, r.resourceGroup, c, r.provider, r.resourceType, r.resourceName], '/')
  }

  /** What parses, and to what: the nine segments in their order, with the keywords in any case. */
  lemma ParseExact(id: string, r: Resource)
    ensures Parse(id) == Ok(r) <==>
            && WellFormed(r)
            && exists a, b, c :: SameWord(a, "subscriptions") && SameWord(b, "resourceGroups")
                 && SameWord(c, "providers") && id == Spelled(r, a, b, c)
  {
    var p := Split(id, '/');
    if Parse(id) == Ok(r) {
      SplitFree(id, '/');
      JoinSplit(id, '/');
      Keywords(p[1], p[3], p[5]);
      assert p == ["", p[1], p[2], p[3], p[4], p[5], p[6], p[7], p[8]];
      assert id == Spelled(r, p[1], p[3], p[5]);
    }
    if WellFormed(r) {
      forall a, b, c | SameWord(a, "subscriptions") && SameWord(b, "resourceGroups")
          && SameWord(c, "providers") && id == Spelled(r, a, b, c)
        ensures Parse(id) == Ok(r)
      {
        SpelledParses(r, a, b, c);
      }
    }
  }

  lemma Keywords(a: string, b: string, c: string)
    ensures EqualFold(a, "subscriptions") <==> SameWord(a, "subscriptions")
    ensures EqualFold(b, "resourceGroups") <==> SameWord(b, "resourceGroups")
    ensures EqualFold(c, "providers") <==> SameWord(c, "providers")
  {
    FoldExact(a, "subscriptions");
    FoldExact(b, "resourceGroups");
    FoldExact(c, "providers");
  }

  lemma SpelledParses(r: Resource, a: string, b: string, c: string)
    requires WellFormed(r)
    requires SameWord(a, "subscriptions") && SameWord(b, "resourceGroups") && SameWord(c, "providers")
    ensures Parse(Spelled(r, a, b, c)) == Ok(r)
  {
    Keywords(a, b, c);
    WordFree(a, "subscriptions");
    WordFree(b, "resourceGroups");
    WordFree(c, "providers");
    var p := ["", a, r.subscriptionId, b, r.resourceGroup, c, r.provider, r.resourceType, r.resourceName];
    hide SameWord, EqualFold;
    SplitJoin(p, '/');
  }

  lemma WordFree(s: string, word: string)
    requires SameWord(s, word) && Free(word, '/')
    ensures Free(s, '/')
  {
    forall i | 0 <= i < |s|
      ensures s[i] != '/'
    {
      assert SameLetter(s[i], word[i]) && word[i] in word;
    }
  }

  lemma ParseWellFormed(id: string)
    requires Parse(id).Ok?
    ensures WellFormed(Parse(id).value)
  {
    SplitFree(id, '/');
  }

  /** Printing a parsed id gives it back exactly when its keywords are in the usual letter case. */
  lemma PrintParse(id: string)
    requires Parse(id).Ok?
    ensures Print(Parse(id).value) == id <==> Canonical(id)
  {
    var r := Parse(id).value;
    ParseWellFormed(id);
    ParsePrint(r);
    JoinSplit(id, '/');
    if Canonical(id) {
      assert Split(id, '/') == Segments(r);
    }
  }
}
