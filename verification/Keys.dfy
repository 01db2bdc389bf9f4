/**
  The texts that are hashed into idempotency keys, advisory locks and MAC addresses:
  internal/planner/execution.go, internal/state/postgres and internal/allocation.  Each determines what it was made of.
 */
module Keys {
  import opened Prelude
  import opened Text

  /** Nothing in the key but the control-plane id, which comes first, may contain a newline. */
  function IdempotencyKey(controlPlane: string, name: string, generation: nat, operation: string, digest: string): string {
    controlPlane + "\n" + name + "\n" + Decimal(generation) + "\n" + operation + "\n" + digest
  }

  function ResourceLockKey(controlPlane: string, name: string): string {
    Decimal(|controlPlane|) + ":" + controlPlane + "|2:vm|" + Decimal(|name|) + ":" + name
  }

  function ExecutionLockKey(name: string): string {
    "bkcp:execute:vm:" + name
  }

  function PoolLockKey(controlPlane: string, pool: string): string {
    "bkcp:pool:" + controlPlane + ":" + pool
  }

  function MacSeed(controlPlane: string, name: string, counter: nat): string {
    Decimal(|controlPlane|) + ":" + controlPlane + "|" + Decimal(|name|) + ":" + name + "|" + Decimal(counter)
  }

  // ----- decimal numbers

  lemma {:induction false} DecimalDigits(n: nat)
    ensures forall c <- Decimal(n) :: '0' <= c <= '9'
  {
    if n >= 10 {
      DecimalDigits(n / 10);
    }
  }

  lemma {:induction false} DecimalIsInjective(m: nat, n: nat)
    requires Decimal(m) == Decimal(n)
    ensures m == n
  {
    assert Decimal(m)[|Decimal(m)| - 1] == Decimal(n)[|Decimal(n)| - 1];
    assert m % 10 == n % 10;
    if m >= 10 && n >= 10 {
      assert Decimal(m / 10) == Decimal(m)[..|Decimal(m)| - 1] == Decimal(n)[..|Decimal(n)| - 1] == Decimal(n / 10);
      DecimalIsInjective(m / 10, n / 10);
    }
  }

  // ----- splitting at a separator

  /** The last separator of a text decides where it is split. */
  lemma SplitRight(a: string, b: string, c: string, d: string, sep: char)
    requires a + [sep] + b == c + [sep] + d && sep !in b && sep !in d
    ensures a == c && b == d
  {
    var s := a + [sep] + b;
    assert s[|a|] == sep && s[|c|] == sep;
    assert forall i :: |a| < i < |s| ==> s[i] == b[i - |a| - 1];
    assert forall i :: |c| < i < |s| ==> s[i] == d[i - |c| - 1];
    assert |a| == |c|;
    assert a == s[..|a|] && b == s[|a| + 1..];
  }

  /** ... and so does the first. */
  lemma SplitLeft(a: string, b: string, c: string, d: string, sep: char)
    requires a + [sep] + b == c + [sep] + d && sep !in a && sep !in c
    ensures a == c && b == d
  {
    var s := a + [sep] + b;
    assert s[|a|] == sep && s[|c|] == sep;
    assert forall i :: 0 <= i < |a| ==> s[i] == a[i];
    assert forall i :: 0 <= i < |c| ==> s[i] == c[i];
    assert |a| == |c|;
    assert a == s[..|a|] && b == s[|a| + 1..];
  }

  /** A length-prefixed field in front of anything. */
  function Field(a: string, rest: string): string {
    Decimal(|a|) + ":" + (a + rest)
  }

  lemma FieldIsReadBack(a: string, rest: string, b: string, rest': string)
    requires Field(a, rest) == Field(b, rest')
    ensures a == b && rest == rest'
  {
    DecimalDigits(|a|);
    DecimalDigits(|b|);
    SplitLeft(Decimal(|a|), a + rest, Decimal(|b|), b + rest', ':');
    DecimalIsInjective(|a|, |b|);
    assert a == (a + rest)[..|a|] && b == (b + rest')[..|b|];
    assert rest == (a + rest)[|a|..] && rest' == (b + rest')[|b|..];
  }

  lemma DropPrefix(prefix: string, a: string, b: string)
    requires prefix + a == prefix + b
    ensures a == b
  {
    assert a == (prefix + a)[|prefix|..];
  }

  // ----- the keys

  predicate OneLine(s: string) {
    '\n' !in s
  }

  /**
    Decoded from the right, the key gives back all five components, even when the control-plane id contains
    newlines: names are DNS labels, operations are words and digests are hexadecimal.
   */
  lemma IdempotencyKeyIsInjective(controlPlane: string, name: string, generation: nat, operation: string, digest: string,
                                  controlPlane': string, name': string, generation': nat, operation': string,
                                  digest': string)
    requires OneLine(name) && OneLine(operation) && OneLine(digest)
    requires OneLine(name') && OneLine(operation') && OneLine(digest')
    requires IdempotencyKey(controlPlane, name, generation, operation, digest)
             == IdempotencyKey(controlPlane', name', generation', operation', digest')
    ensures controlPlane == controlPlane' && name == name' && generation == generation'
    ensures operation == operation' && digest == digest'
  {
    var g, g' := Decimal(generation), Decimal(generation');
    DecimalDigits(generation);
    DecimalDigits(generation');
    SplitRight(controlPlane + "\n" + name + "\n" + g + "\n" + operation, digest,
               controlPlane' + "\n" + name' + "\n" + g' + "\n" + operation', digest', '\n');
    SplitRight(controlPlane + "\n" + name + "\n" + g, operation, controlPlane' + "\n" + name' + "\n" + g', operation', '\n');
    SplitRight(controlPlane + "\n" + name, g, controlPlane' + "\n" + name', g', '\n');
    SplitRight(controlPlane, name, controlPlane', name', '\n');
    DecimalIsInjective(generation, generation');
  }

  lemma ResourceLockKeyFields(controlPlane: string, name: string)
    ensures ResourceLockKey(controlPlane, name) == Field(controlPlane, "|2:vm|" + Field(name, ""))
  {
    assert name + "" == name;
  }

  lemma ResourceLockKeyIsInjective(controlPlane: string, name: string, controlPlane': string, name': string)
    requires ResourceLockKey(controlPlane, name) == ResourceLockKey(controlPlane', name')
    ensures controlPlane == controlPlane' && name == name'
  {
    ResourceLockKeyFields(controlPlane, name);
    ResourceLockKeyFields(controlPlane', name');
    FieldIsReadBack(controlPlane, "|2:vm|" + Field(name, ""), controlPlane', "|2:vm|" + Field(name', ""));
    DropPrefix("|2:vm|", Field(name, ""), Field(name', ""));
    FieldIsReadBack(name, "", name', "");
  }

  lemma MacSeedFields(controlPlane: string, name: string, counter: nat)
    ensures MacSeed(controlPlane, name, counter) == Field(controlPlane, "|" + Field(name, "|" + Decimal(counter)))
  {
    var c := "|" + Decimal(counter);
    assert MacSeed(controlPlane, name, counter)
           == Decimal(|controlPlane|) + ":" + controlPlane + "|" + Decimal(|name|) + ":" + name + c;
  }

  lemma MacSeedIsInjective(controlPlane: string, name: string, counter: nat,
                           controlPlane': string, name': string, counter': nat)
    requires MacSeed(controlPlane, name, counter) == MacSeed(controlPlane', name', counter')
    ensures controlPlane == controlPlane' && name == name' && counter == counter'
  {
    var c, c' := Decimal(counter), Decimal(counter');
    MacSeedFields(controlPlane, name, counter);
    MacSeedFields(controlPlane', name', counter');
    FieldIsReadBack(controlPlane, "|" + Field(name, "|" + c), controlPlane', "|" + Field(name', "|" + c'));
    DropPrefix("|", Field(name, "|" + c), Field(name', "|" + c'));
    FieldIsReadBack(name, "|" + c, name', "|" + c');
    DropPrefix("|", c, c');
    DecimalIsInjective(counter, counter');
  }

  /** Locks of different kinds never share a key, and one control plane never gives two names or pools one lock. */
  lemma LockKeysDoNotMeet(controlPlane: string, name: string, pool: string, other: string)
    ensures ExecutionLockKey(name) != PoolLockKey(controlPlane, pool)
    ensures ResourceLockKey(controlPlane, name) != ExecutionLockKey(other)
    ensures ResourceLockKey(controlPlane, name) != PoolLockKey(controlPlane, pool)
    ensures ExecutionLockKey(name) == ExecutionLockKey(other) ==> name == other
    ensures PoolLockKey(controlPlane, pool) == PoolLockKey(controlPlane, other) ==> pool == other
  {
    var digits := Decimal(|controlPlane|);
    DecimalDigits(|controlPlane|);
    assert ResourceLockKey(controlPlane, name)[0] == digits[0] && digits[0] in digits;
    assert ExecutionLockKey(name)[5] == 'e' && PoolLockKey(controlPlane, pool)[5] == 'p';
    assert ExecutionLockKey(other)[0] == 'b' && PoolLockKey(controlPlane, pool)[0] == 'b';
    if ExecutionLockKey(name) == ExecutionLockKey(other) {
      assert name == ExecutionLockKey(name)[16..] == ExecutionLockKey(other)[16..] == other;
    }
    if PoolLockKey(controlPlane, pool) == PoolLockKey(controlPlane, other) {
      var n := |"bkcp:pool:" + controlPlane + ":"|;
      assert pool == PoolLockKey(controlPlane, pool)[n..] == PoolLockKey(controlPlane, other)[n..] == other;
    }
  }

  /** The pool lock is not length-prefixed: two control planes on one database can meet in it. */
  lemma PoolLocksOfTwoControlPlanesCanMeet()
    ensures PoolLockKey("a:b", "c") == PoolLockKey("a", "b:c")
  {
    assert PoolLockKey("a:b", "c") == "bkcp:pool:a:b:c" == PoolLockKey("a", "b:c");
  }
}
