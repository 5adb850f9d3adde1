/** The positional SQL placeholder builder of `mainApp/module/pgSqlTemplate.ts`:
    the literal fragments of a tagged template are joined with `$1`, `$2`, ...
    and the interpolated values are handed back untouched, for a client that
    binds parameters by position. */
module PgSqlTemplate {
  import Numerals

  /** The values a template may interpolate: string, number, boolean,
      `undefined` or `null`. Numbers are integers in this model. */
  datatype Primitive = Str(s: string) | Num(n: int) | Bool(b: bool) | Undefined | Null

  /** The placeholder `$i` that stands for the i-th value. */
  function Placeholder(i: nat): (p: string)
    ensures |p| >= 2 && p[0] == '$'
    ensures Numerals.AllDigits(p[1..])
  {
    assert ("$" + Numerals.NatToString(i))[1..] == Numerals.NatToString(i);
    "$" + Numerals.NatToString(i)
  }

  /** `t[0] + "$1" + t[1] + ... + "$(n-1)" + t[n-1]`: the first n fragments
      joined by numbered placeholders. */
  function Assembled(t: seq<string>, n: nat): string
    requires 1 <= n <= |t|
  {
    if n == 1 then t[0] else Assembled(t, n - 1) + Placeholder(n - 1) + t[n - 1]
  }

  /** The compiler itself: a loop that appends `$i` and the i-th fragment to
      an accumulator that starts as the first fragment. A tagged template
      always has at least one fragment. */
  method PgSqlTemplate(template: seq<string>, values: seq<Primitive>) returns (text: string, params: seq<Primitive>)
    requires |template| >= 1
    ensures text == Assembled(template, |template|)
    ensures |template| == 1 ==> text == template[0]
    ensures params == values
  {
    text := template[0];
    for i := 1 to |template|
      invariant text == Assembled(template, i)
    {
      text := text + Placeholder(i) + template[i];
    }
    params := values;
  }

  /** Joining more fragments only extends the text. */
  lemma {:induction false} AssembledPrefix(t: seq<string>, k: nat, n: nat)
    requires 1 <= k <= n <= |t|
    ensures Assembled(t, k) <= Assembled(t, n)
    decreases n
  {
    if k < n {
      AssembledPrefix(t, k, n - 1);
    }
  }

  /** The output begins with the first fragment. */
  lemma StartsWithFirstFragment(t: seq<string>, n: nat)
    requires 1 <= n <= |t|
    ensures t[0] <= Assembled(t, n)
  {
    AssembledPrefix(t, 1, n);
  }

  /** Layout: right after the first k fragments comes `$k`, then fragment k.
      So the placeholders appear numbered 1, 2, ..., n-1, in fragment order. */
  lemma PlaceholderInPlace(t: seq<string>, k: nat, n: nat)
    requires 1 <= k < n <= |t|
    ensures Assembled(t, k) + Placeholder(k) + t[k] <= Assembled(t, n)
  {
    AssembledPrefix(t, k + 1, n);
  }

  /** Different positions get different placeholders. */
  lemma PlaceholdersDistinct(i: nat, j: nat)
    requires i != j
    ensures Placeholder(i) != Placeholder(j)
  {
    if Placeholder(i) == Placeholder(j) {
      assert Placeholder(i)[1..] == Numerals.NatToString(i);
      assert Placeholder(j)[1..] == Numerals.NatToString(j);
      Numerals.NatToStringInjective(i, j);
    }
  }

  /** Total length of the first n fragments. */
  function FragmentsLength(t: seq<string>, n: nat): nat
    requires n <= |t|
  {
    if n == 0 then 0 else FragmentsLength(t, n - 1) + |t[n - 1]|
  }

  /** Total length of the tokens `$1` .. `$m`. */
  function PlaceholdersLength(m: nat): nat {
    if m == 0 then 0 else PlaceholdersLength(m - 1) + |Placeholder(m)|
  }

  /** The output length is the fragments' lengths plus the placeholders'. */
  lemma {:induction false} AssembledLength(t: seq<string>, n: nat)
    requires 1 <= n <= |t|
    ensures |Assembled(t, n)| == FragmentsLength(t, n) + PlaceholdersLength(n - 1)
  {
    if n > 1 {
      AssembledLength(t, n - 1);
    }
  }
}
