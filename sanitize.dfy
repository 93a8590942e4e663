/** `getSanitizedRoleName` of cmd/root.go: the role name with every '-'
    removed (`strings.Replace(name, "-", "", -1)`), used as the logical name
    of the CloudFormation resource. */
module Sanitizer {
  import opened Strings

  const Hyphen: char := '-'

  function Sanitize(name: string): string
  {
    if name == [] then []
    else (if name[0] == Hyphen then [] else [name[0]]) + Sanitize(name[1..])
  }

  /** The sanitized name holds no hyphen, and only characters of the name. */
  lemma {:induction false} SanitizeChars(name: string)
    ensures forall ch :: ch in Sanitize(name) ==> ch in name && ch != Hyphen
  {
    if name != [] {
      SanitizeChars(name[1..]);
    }
  }

  /** Reference definition: replacing every "-" by "" is cutting the name at
      its hyphens and gluing the pieces back with nothing between them. */
  lemma {:induction false} SanitizeIsReplaceAll(name: string)
    ensures Sanitize(name) == Join(Split(name, Hyphen), "")
  {
    if name != [] {
      var rest := Split(name[1..], Hyphen);
      SanitizeIsReplaceAll(name[1..]);
      if name[0] == Hyphen {
        JoinCons("", rest, "");
      } else {
        JoinPrependFirst([name[0]], rest, "");
      }
    }
  }

  /** Sanitizing distributes over concatenation: the other characters keep
      their order. */
  lemma {:induction false} SanitizeAppend(a: string, b: string)
    ensures Sanitize(a + b) == Sanitize(a) + Sanitize(b)
  {
    if a == [] {
      assert a + b == b;
    } else {
      assert (a + b)[0] == a[0];
      assert (a + b)[1..] == a[1..] + b;
      SanitizeAppend(a[1..], b);
    }
  }

  /** A name without hyphens is already sanitized. */
  lemma {:induction false} SanitizeHyphenFree(name: string)
    requires Hyphen !in name
    ensures Sanitize(name) == name
  {
    if name != [] {
      SanitizeHyphenFree(name[1..]);
    }
  }

  /** Sanitizing twice is sanitizing once. */
  lemma SanitizeIdempotent(name: string)
    ensures Sanitize(Sanitize(name)) == Sanitize(name)
  {
    SanitizeChars(name);
    SanitizeHyphenFree(Sanitize(name));
  }

  /** Every character other than '-' occurs as often as before. */
  lemma {:induction false} SanitizeKeepsOthers(name: string, c: char)
    requires c != Hyphen
    ensures Count(Sanitize(name), c) == Count(name, c)
  {
    if name != [] {
      SanitizeKeepsOthers(name[1..], c);
      var head := if name[0] == Hyphen then [] else [name[0]];
      CountAppend(head, Sanitize(name[1..]), c);
    }
  }

  lemma {:induction false} CountAppend(a: string, b: string, c: char)
    ensures Count(a + b, c) == Count(a, c) + Count(b, c)
  {
    if a == [] {
      assert a + b == b;
    } else {
      assert (a + b)[1..] == a[1..] + b;
      CountAppend(a[1..], b, c);
    }
  }

  /** The result is as long as the name less its hyphens. */
  lemma {:induction false} SanitizeLength(name: string)
    ensures |Sanitize(name)| == |name| - Count(name, Hyphen)
  {
    if name != [] {
      SanitizeLength(name[1..]);
    }
  }

  /** A hyphen between two parts disappears and the parts are sanitized
      independently. */
  lemma DropHyphen(a: string, b: string)
    ensures Sanitize(a + [Hyphen] + b) == Sanitize(a) + Sanitize(b)
  {
    assert a + [Hyphen] + b == a + ([Hyphen] + b);
    SanitizeAppend(a, [Hyphen] + b);
    assert ([Hyphen] + b)[1..] == b;
  }

  /** A name of three hyphen-free words joined by hyphens loses exactly
      those two hyphens. */
  lemma ThreeWords(a: string, b: string, c: string)
    requires Hyphen !in a && Hyphen !in b && Hyphen !in c
    ensures Sanitize(a + [Hyphen] + b + [Hyphen] + c) == a + b + c
  {
    DropHyphen(a + [Hyphen] + b, c);
    DropHyphen(a, b);
    SanitizeHyphenFree(a);
    SanitizeHyphenFree(b);
    SanitizeHyphenFree(c);
  }

  /** The name used by the repository's test. */
  lemma SanitizeExample(name: string)
    requires name == "test-role-name"
    ensures Sanitize(name) == "testrolename"
  {
    ThreeWords("test", "role", "name");
    assert name == "test" + [Hyphen] + "role" + [Hyphen] + "name";
  }
}
