// JSON values, and the order in which Python sorts object keys.
module Json {
  datatype Json =
    | Null
    | Bool(b: bool)
    | Int(i: int)
    | Float(r: real)
    | Str(s: string)
    | Arr(items: seq<Json>)
    | Obj(fields: map<string, Json>)

  type Payload = map<string, Json>

  // Lexicographic order on strings.
  predicate Below(a: string, b: string) {
    if b == "" then false
    else if a == "" then true
    else a[0] < b[0] || (a[0] == b[0] && Below(a[1..], b[1..]))
  }

  lemma {:induction false} BelowTotal(a: string, b: string)
    ensures a == b || Below(a, b) || Below(b, a)
    ensures !(Below(a, b) && Below(b, a)) && !Below(a, a)
  {
    if a != "" { BelowTotal(a[1..], a[1..]); }
    if a != "" && b != "" {
      BelowTotal(a[1..], b[1..]);
      assert a == [a[0]] + a[1..] && b == [b[0]] + b[1..];
    }
  }

  lemma {:induction false} BelowTransitive(a: string, b: string, c: string)
    requires Below(a, b) && Below(b, c)
    ensures Below(a, c)
  {
    if a != "" && a[0] == b[0] == c[0] { BelowTransitive(a[1..], b[1..], c[1..]); }
  }

  predicate IsLeast(m: string, s: set<string>) {
    m in s && forall y | y in s :: y == m || Below(m, y)
  }

  lemma {:induction false} LeastExists(s: set<string>) returns (m: string)
    requires s != {}
    ensures IsLeast(m, s)
    decreases s
  {
    var x :| x in s;
    if s == {x} {
      m := x;
    } else {
      var n := LeastExists(s - {x});
      BelowTotal(x, n);
      m := if Below(x, n) then x else n;
      forall y | y in s ensures y == m || Below(m, y) {
        if y != x && y != n && Below(x, n) { BelowTransitive(x, n, y); }
      }
    }
  }

  ghost predicate Increasing(r: seq<string>) {
    forall i, j | 0 <= i < j < |r| :: Below(r[i], r[j])
  }

  // sorted(s)
  function SortedKeys(s: set<string>): (r: seq<string>)
    ensures Increasing(r)
    ensures forall x :: x in r <==> x in s
    decreases |s|
  {
    if s == {} then []
    else
      assert exists m :: m in s && IsLeast(m, s) by { var m := LeastExists(s); }
      assert forall m, n | IsLeast(m, s) && IsLeast(n, s) :: m == n by {
        forall m, n | IsLeast(m, s) && IsLeast(n, s) ensures m == n { BelowTotal(m, n); }
      }
      var m :| m in s && IsLeast(m, s);
      var rest := SortedKeys(s - {m});
      assert forall i | 0 <= i < |rest| :: rest[i] in rest;
      [m] + rest
  }
}
