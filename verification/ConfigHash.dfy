/** The hash of a config: `generateConfigHash` of
    apps/api/src/reconciler/config-generator.service.ts. */
module ConfigHash {
  import opened SortedDocs
  import opened JsonText
  import opened JsonReader

  lemma {:induction false} CleanIsPlain(d: Doc)
    requires WellFormed(d)
    ensures Plain(Clean(d))
    decreases d
  {
    match d
    case Atom(_) =>
    case List(xs) =>
      forall x | x in xs ensures Plain(Clean(x)) { CleanIsPlain(x); }
      assert forall i | 0 <= i < |xs| :: Clean(d).items[i] == Clean(xs[i]) && xs[i] in xs;
    case Rec(es) =>
      forall e | e in es ensures Plain(Clean(e.value)) { CleanIsPlain(e.value); }
      CleanMembers(es);
  }

  /** What is hashed of a document. */
  function Printed(d: Doc, number: Numbers): string {
    Text(Clean(SortKeys(d)), number)
  }

  /** What is hashed reads back as the config, up to key order and what stringify leaves out. */
  lemma {:induction false} PrintedReadsBack(d: Doc, number: Numbers, numeral: string -> real)
    requires WellFormed(d) && Legible(number, numeral, NumbersIn(Clean(SortKeys(d))))
    ensures var r := ReadValue(Printed(d, number), numeral);
            r.Some? && r.value.1 == "" && Meaning(r.value.0) == CleanJson(Meaning(d)) && DeepSorted(r.value.0)
  {
    SortKeepsMeaning(d);
    CleanMeaning(SortKeys(d));
    CleanIsPlain(SortKeys(d));
    ReadsBack(Clean(SortKeys(d)), number, numeral, "");
    assert Printed(d, number) + "" == Printed(d, number);
  }

  /** The hash of a config object. */
  function HashOf(d: Doc, number: Numbers, digest: string -> string): string {
    digest(Printed(d, number))
  }

  /** Documents that say the same, up to what stringify leaves out, have the same text
      and so the same hash, whatever the digest. */
  lemma {:induction false} PrintedAlike(a: Doc, b: Doc, number: Numbers)
    requires WellFormed(a) && WellFormed(b) && CleanJson(Meaning(a)) == CleanJson(Meaning(b))
    ensures Printed(a, number) == Printed(b, number)
  {
    var s, t := SortKeys(a), SortKeys(b);
    SortKeepsMeaning(a);
    SortKeepsMeaning(b);
    CleanMeaning(s);
    CleanMeaning(t);
    SortedFormUnique(Clean(s), Clean(t));
  }

  /** Equal documents up to key order, and up to what stringify leaves out, have equal
      hashes; and only those, if the digest tells their two texts apart and the texts of
      numbers tell their numbers apart. */
  lemma {:induction false} HashAgrees(a: Doc, b: Doc, number: Numbers, digest: string -> string)
    requires WellFormed(a) && WellFormed(b)
    requires TellsApart(number, NumbersIn(Clean(SortKeys(a))) + NumbersIn(Clean(SortKeys(b))))
    requires HashOf(a, number, digest) == HashOf(b, number, digest) ==> Printed(a, number) == Printed(b, number)
    ensures HashOf(a, number, digest) == HashOf(b, number, digest)
            <==> CleanJson(Meaning(a)) == CleanJson(Meaning(b))
  {
    var s, t := SortKeys(a), SortKeys(b);
    if CleanJson(Meaning(a)) == CleanJson(Meaning(b)) {
      PrintedAlike(a, b, number);
    } else {
      SortKeepsMeaning(a);
      SortKeepsMeaning(b);
      CleanMeaning(s);
      CleanMeaning(t);
      CleanIsPlain(s);
      CleanIsPlain(t);
      if Text(Clean(s), number) == Text(Clean(t), number) {
        TextsApart(Clean(s), Clean(t), number, "", "");
      }
    }
  }
}
