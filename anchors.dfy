/**
 * The two anchor forms the document uses. Headers and table-of-contents
 * entries use the member's key unchanged followed by `-<kind>`; links to a
 * type from a field or a return line lower-case the name, turn spaces into
 * underscores and append `-type`.
 */
module Anchors {
  import opened Text

  /** The anchor a member's header declares and its table-of-contents entry targets. */
  function HeaderAnchor(name: string, kind: string): (a: string)
    ensures |a| == |name| + 1 + |kind|
    ensures a[..|name|] == name && a[|name|] == '-' && a[|name| + 1..] == kind
  {
    name + "-" + kind
  }

  /** The slug of a field's object type: spaces replaced first, then lower-cased. */
  function FieldSlug(name: string): string {
    Lower(ReplaceSpaces(name)) + "-type"
  }

  /** The slug of a return type: lower-cased first, then spaces replaced. */
  function ReturnSlug(name: string): string {
    ReplaceSpaces(Lower(name)) + "-type"
  }

  /** A name no slug changes: no ASCII capital and no space. */
  predicate Canonical(name: string) {
    forall i :: 0 <= i < |name| ==> !IsUpper(name[i]) && name[i] != ' '
  }

  /** The two slug expressions apply their steps in opposite orders, yet always agree. */
  lemma SlugsAgree(name: string)
    ensures FieldSlug(name) == ReturnSlug(name)
  {
    var a, b := Lower(ReplaceSpaces(name)), ReplaceSpaces(Lower(name));
    ReplaceSpacesAt(name);
    LowerAt(ReplaceSpaces(name));
    LowerAt(name);
    ReplaceSpacesAt(Lower(name));
    forall i | 0 <= i < |name| ensures a[i] == b[i] {
      if name[i] == ' ' {
        assert LowerChar(' ') == ' ';
      }
    }
  }

  /** The name part of every slug is canonical: it has no capital letter and no space. */
  lemma SlugIsCanonical(name: string)
    ensures Canonical(Lower(ReplaceSpaces(name)))
  {
    var r := ReplaceSpaces(name);
    ReplaceSpacesAt(name);
    LowerAt(r);
    forall i | 0 <= i < |name| ensures !IsUpper(Lower(r)[i]) && Lower(r)[i] != ' ' {
      assert r[i] != ' ';
    }
  }

  /**
   * A link to a type lands on that type's header exactly when the type's key
   * is canonical; a key with a capital letter or a space gets a header
   * anchor that no link produces.
   */
  lemma {:induction false} FieldSlugMatchesHeaderIff(name: string)
    ensures FieldSlug(name) == HeaderAnchor(name, "type") <==> Canonical(name)
  {
    var slug := Lower(ReplaceSpaces(name));
    ReplaceSpacesAt(name);
    LowerAt(ReplaceSpaces(name));
    if Canonical(name) {
      forall i | 0 <= i < |name| ensures slug[i] == name[i] {
        assert ReplaceSpaces(name)[i] == name[i];
      }
      assert slug == name;
    } else {
      var i :| 0 <= i < |name| && (IsUpper(name[i]) || name[i] == ' ');
      assert slug[i] != name[i];
      assert (slug + "-type")[i] == slug[i];
      assert HeaderAnchor(name, "type")[i] == name[i];
    }
  }

  /** Header anchors of distinct members of one section are distinct. */
  lemma HeaderAnchorInjective(n1: string, n2: string, kind: string)
    requires HeaderAnchor(n1, kind) == HeaderAnchor(n2, kind)
    ensures n1 == n2
  {
    var a := HeaderAnchor(n1, kind);
    assert a[..|a| - |kind| - 1] == n1;
  }
}
