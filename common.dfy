/** Values shared by every app of the factory model: optional values, the
    outcome of a view, and the whitespace trimming that the views apply to
    posted text fields. */
module Common {

  datatype Option<+T> = None | Some(value: T)

  /** Why a view refused a POST. Every refusal leaves the database as it was:
      either the view returned before writing, or the exception it raised
      rolled its `transaction.atomic` block back. */
  datatype Refusal =
    | NotFound          // get_object_or_404 or objects.get found no row
    | WrongStatus       // the status guard at the top of the view failed
    | Insufficient      // a stock check failed
    | MissingInventory  // Inventory.objects.get raised DoesNotExist
    | BlankInput        // a required text field was empty after strip()
    | InvalidForm       // form, formset or row validation failed
    | TypeMismatch      // a Decimal field was combined with a float (TypeError)

  datatype Result<+T> = Ok(value: T) | Err(refusal: Refusal)

  /** The characters Python's str.strip() removes (str.isspace()). */
  predicate IsSpace(c: char)
  {
    var n := c as int;
    n == 0x20 || 0x09 <= n <= 0x0D || 0x1C <= n <= 0x1F || n == 0x85 || n == 0xA0
    || n == 0x1680 || 0x2000 <= n <= 0x200A || n == 0x2028 || n == 0x2029
    || n == 0x202F || n == 0x205F || n == 0x3000
  }

  predicate IsBlank(s: string)
  {
    forall i :: 0 <= i < |s| ==> IsSpace(s[i])
  }

  /** str.lstrip(): drop the leading whitespace. */
  function TrimLeft(s: string): string
  {
    if s == [] || !IsSpace(s[0]) then s else TrimLeft(s[1..])
  }

  /** str.rstrip(): drop the trailing whitespace. */
  function TrimRight(s: string): string
  {
    if s == [] || !IsSpace(s[|s| - 1]) then s else TrimRight(s[..|s| - 1])
  }

  /** Python's s.strip(). */
  function Strip(s: string): string
  {
    TrimRight(TrimLeft(s))
  }

  /** lstrip() keeps a suffix, removes only whitespace, and leaves no
      leading whitespace. */
  lemma {:induction false} TrimLeftRemovesLeadingSpace(s: string)
    ensures var r := TrimLeft(s);
      && |r| <= |s| && r == s[|s| - |r|..]
      && (r == [] || !IsSpace(r[0]))
      && IsBlank(s[..|s| - |r|])
  {
    if s != [] && IsSpace(s[0]) {
      TrimLeftRemovesLeadingSpace(s[1..]);
      var r := TrimLeft(s[1..]);
      assert s[..|s| - |r|] == [s[0]] + s[1..][..|s| - 1 - |r|];
    }
  }

  /** rstrip() keeps a prefix, removes only whitespace, and leaves no
      trailing whitespace. */
  lemma {:induction false} TrimRightRemovesTrailingSpace(s: string)
    ensures var r := TrimRight(s);
      && |r| <= |s| && r == s[..|r|]
      && (r == [] || !IsSpace(r[|r| - 1]))
      && IsBlank(s[|r|..])
  {
    if s != [] && IsSpace(s[|s| - 1]) {
      TrimRightRemovesTrailingSpace(s[..|s| - 1]);
      var r := TrimRight(s[..|s| - 1]);
      assert s[|r|..] == s[..|s| - 1][|r|..] + [s[|s| - 1]];
    }
  }

  /** strip() leaves neither leading nor trailing whitespace. */
  lemma StripTrimsBothEnds(s: string)
    ensures var r := Strip(s); r == [] || (!IsSpace(r[0]) && !IsSpace(r[|r| - 1]))
  {
    var l := TrimLeft(s);
    TrimLeftRemovesLeadingSpace(s);
    TrimRightRemovesTrailingSpace(l);
  }

  /** `if not s.strip()` rejects exactly the strings made of whitespace only. */
  lemma {:induction false} StripEmptyIffBlank(s: string)
    ensures Strip(s) == [] <==> IsBlank(s)
  {
    var l := TrimLeft(s);
    var r := TrimRight(l);
    TrimLeftRemovesLeadingSpace(s);
    TrimRightRemovesTrailingSpace(l);
    if r == [] {
      assert IsBlank(l[|r|..]);
      assert l == [];
      assert s[..|s| - |l|] == s;
    } else {
      assert r[0] == l[0];
      assert l[0] == s[|s| - |l|];
      assert !IsSpace(s[|s| - |l|]);
    }
  }

  /** Sequence concatenation is associative (stated once so that long
      loop proofs need not rediscover it). */
  lemma AppendAssoc<T>(a: seq<T>, b: seq<T>, c: seq<T>)
    ensures (a + b) + c == a + (b + c)
  {
  }

  /** A prefix one longer is the prefix with the next element appended. */
  lemma TakeSnoc<T>(s: seq<T>, i: nat)
    requires i < |s|
    ensures s[..i + 1] == s[..i] + [s[i]]
  {
  }
}
