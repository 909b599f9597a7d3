/** JSON values as the upstream backend delivers them, Python's truthiness,
    the `or`-chain field lookup every report uses, and Python's `str()` on
    the values that end up in a report cell. */
module Json {

  /** A decoded JSON value. JSON numbers are modelled as integers. */
  datatype JVal =
    | JNull
    | JBool(b: bool)
    | JInt(i: int)
    | JStr(s: string)
    | JList(items: seq<JVal>)
    | JObj(fields: map<string, JVal>)

  /** A decoded JSON object: what `e`, `j`, `p` and `item` are in the report loops. */
  type Record = map<string, JVal>

  /** Why a report fails where Python raises. */
  datatype Failure =
    | NotIterable     // iterating None, a bool or a number (TypeError)
    | NotADict        // calling `.get` on something that is not a dict (AttributeError)
    | NotSliceable    // slicing None, a number or a dict (TypeError)
    | NonIntegerMetric // a leaderboard metric that is not an integer
    | Http(status: int, detail: string) // an HTTPException raised by `_ensure_ok`

  datatype Result<T> = Ok(value: T) | Err(failure: Failure)

  datatype Option<T> = None | Some(value: T)

  /** Python's truth value: None, False, 0, "", [] and {} are false. */
  predicate Truthy(v: JVal)
  {
    match v
    case JNull => false
    case JBool(b) => b
    case JInt(i) => i != 0
    case JStr(s) => s != ""
    case JList(xs) => xs != []
    case JObj(m) => m != map[]
  }

  /** `record.get(key)`: the stored value, or None when the key is absent. */
  function Get(record: Record, key: string): (v: JVal)
    ensures key !in record ==> v == JNull
    ensures key in record ==> v == record[key]
  {
    if key in record then record[key] else JNull
  }

  /** `record.get(key, dflt)`: the default replaces only an ABSENT key, never a falsy value. */
  function GetOr(record: Record, key: string, dflt: JVal): (v: JVal)
    ensures key in record ==> v == record[key]
    ensures key !in record ==> v == dflt
  {
    if key in record then record[key] else dflt
  }

  /** Alias `k` is the first one whose value is truthy. */
  ghost predicate FirstTruthyAt(record: Record, aliases: seq<string>, k: int)
  {
    0 <= k < |aliases| && Truthy(Get(record, aliases[k])) &&
    forall j :: 0 <= j < k ==> !Truthy(Get(record, aliases[j]))
  }

  /** `record.get(a0) or record.get(a1) or ... or dflt`: the value of the
      first alias whose value is truthy, otherwise the default (returned as
      it is, even when it is falsy itself). */
  function Resolve(record: Record, aliases: seq<string>, dflt: JVal): (r: JVal)
    ensures (forall k :: 0 <= k < |aliases| ==> !Truthy(Get(record, aliases[k]))) ==> r == dflt
    ensures r == dflt || Truthy(r)
    ensures (exists k :: 0 <= k < |aliases| && Truthy(Get(record, aliases[k]))) ==> Truthy(r)
    decreases |aliases|
  {
    if aliases == [] then dflt
    else if Truthy(Get(record, aliases[0])) then Get(record, aliases[0])
    else Resolve(record, aliases[1..], dflt)
  }

  /** The value of the first truthy alias is the resolved value. */
  lemma {:induction false} ResolveTakesFirstTruthy(record: Record, aliases: seq<string>, dflt: JVal, k: int)
    requires FirstTruthyAt(record, aliases, k)
    ensures Resolve(record, aliases, dflt) == Get(record, aliases[k])
    decreases k
  {
    if k > 0 {
      assert !Truthy(Get(record, aliases[0]));
      assert FirstTruthyAt(record, aliases[1..], k - 1) by {
        forall j | 0 <= j < k - 1 ensures !Truthy(Get(record, aliases[1..][j])) {
          assert aliases[1..][j] == aliases[j + 1];
        }
      }
      ResolveTakesFirstTruthy(record, aliases[1..], dflt, k - 1);
    }
  }

  /** No alias holds a truthy value. */
  predicate NoneTruthy(record: Record, aliases: seq<string>)
  {
    forall k :: 0 <= k < |aliases| ==> !Truthy(Get(record, aliases[k]))
  }

  /** `ResolveTakesFirstTruthy` for every alias position at once. */
  lemma ResolveAtFirstTruthy(record: Record, aliases: seq<string>, dflt: JVal)
    ensures forall k :: FirstTruthyAt(record, aliases, k) ==> Resolve(record, aliases, dflt) == Get(record, aliases[k])
  {
    forall k | FirstTruthyAt(record, aliases, k) {
      ResolveTakesFirstTruthy(record, aliases, dflt, k);
    }
  }

  /** When some alias holds a truthy value, there is a first one, and the
      resolved value is that alias's value: never the default. */
  lemma {:induction false} ResolveFindsFirstTruthy(record: Record, aliases: seq<string>, dflt: JVal, k: int)
    requires 0 <= k < |aliases| && Truthy(Get(record, aliases[k]))
    ensures exists f :: 0 <= f <= k && FirstTruthyAt(record, aliases, f) &&
                        Resolve(record, aliases, dflt) == Get(record, aliases[f])
    ensures Truthy(Resolve(record, aliases, dflt))
  {
    if Truthy(Get(record, aliases[0])) {
      assert FirstTruthyAt(record, aliases, 0);
    } else {
      ResolveFindsFirstTruthy(record, aliases[1..], dflt, k - 1);
      var f :| 0 <= f <= k - 1 && FirstTruthyAt(record, aliases[1..], f) &&
                Resolve(record, aliases[1..], dflt) == Get(record, aliases[1..][f]);
      assert FirstTruthyAt(record, aliases, f + 1);
    }
  }

  /** Keys outside the alias list play no part: changing one leaves the
      resolved value as it was. */
  lemma {:induction false} ResolveReadsOnlyAliases(record: Record, aliases: seq<string>, dflt: JVal, key: string, v: JVal)
    requires key !in aliases
    ensures Resolve(record[key := v], aliases, dflt) == Resolve(record, aliases, dflt)
    decreases |aliases|
  {
    if aliases != [] {
      assert Get(record[key := v], aliases[0]) == Get(record, aliases[0]);
      ResolveReadsOnlyAliases(record, aliases[1..], dflt, key, v);
    }
  }

  /** A stored falsy value (0, "", False, [], {}) is skipped exactly like a
      missing key: only truthiness decides, not presence. */
  lemma {:induction false} FalsyValueIsLikeMissingKey(record: Record, aliases: seq<string>, dflt: JVal, key: string)
    requires key in record && !Truthy(record[key])
    ensures Resolve(record, aliases, dflt) == Resolve(record - {key}, aliases, dflt)
    decreases |aliases|
  {
    if aliases != [] {
      assert Truthy(Get(record, aliases[0])) == Truthy(Get(record - {key}, aliases[0]));
      FalsyValueIsLikeMissingKey(record, aliases[1..], dflt, key);
    }
  }

  // ----- Python's str() on JSON values -----

  function DigitChar(d: nat): (c: char)
    requires d < 10
    ensures '0' <= c <= '9'
  {
    "0123456789"[d]
  }

  /** `str(n)` for a non-negative integer: its decimal digits, no leading zeros. */
  function NatToString(n: nat): (s: string)
    ensures |s| >= 1
    ensures forall k :: 0 <= k < |s| ==> '0' <= s[k] <= '9'
    ensures |s| > 1 ==> s[0] != '0'
    decreases n
  {
    if n < 10 then [DigitChar(n)] else NatToString(n / 10) + [DigitChar(n % 10)]
  }

  /** Only zero is written with a leading '0'. */
  lemma {:induction false} NatToStringLeadingDigit(n: nat)
    ensures n > 0 ==> NatToString(n)[0] != '0'
    decreases n
  {
    if n >= 10 {
      NatToStringLeadingDigit(n / 10);
      assert NatToString(n)[0] == NatToString(n / 10)[0];
    } else if n > 0 {
      assert NatToString(n) == ["0123456789"[n]];
    }
  }

  /** The value a string of decimal digits denotes. */
  function DigitsValue(s: string): nat
    requires forall k :: 0 <= k < |s| ==> '0' <= s[k] <= '9'
  {
    if s == [] then 0
    else DigitsValue(s[..|s| - 1]) * 10 + (s[|s| - 1] as int - '0' as int)
  }

  /** `str(n)` is read back as `n`: the row number cells name the row. */
  lemma {:induction false} NatToStringRoundTrip(n: nat)
    ensures DigitsValue(NatToString(n)) == n
    decreases n
  {
    if n >= 10 {
      NatToStringRoundTrip(n / 10);
      var s, front := NatToString(n), NatToString(n / 10);
      assert s == front + [DigitChar(n % 10)];
      assert s[..|s| - 1] == front;
      assert s[|s| - 1] as int - '0' as int == n % 10;
      assert DigitsValue(s) == DigitsValue(front) * 10 + n % 10;
      assert n == (n / 10) * 10 + n % 10;
    }
  }

  /** `str(i)` for any integer. */
  function IntToString(i: int): (s: string)
    ensures |s| >= 1 && (i < 0 <==> s[0] == '-')
    ensures i >= 0 ==> (forall k :: 0 <= k < |s| ==> '0' <= s[k] <= '9') && DigitsValue(s) == i
    ensures i < 0 ==> (forall k :: 1 <= k < |s| ==> '0' <= s[k] <= '9') && DigitsValue(s[1..]) == -i
  {
    if i < 0 then NatToStringRoundTrip(-i); assert ("-" + NatToString(-i))[1..] == NatToString(-i); "-" + NatToString(-i)
    else NatToStringRoundTrip(i); NatToString(i)
  }

  /** `str(i)` writes no leading zero: the first digit (after the sign of a
      negative number) is '0' only for zero itself. */
  lemma IntToStringCanonical(i: int)
    ensures |IntToString(i)| > 1 ==> IntToString(i)[if i < 0 then 1 else 0] != '0'
    ensures IntToString(i)[if i < 0 then 1 else 0] == '0' <==> i == 0
  {
    if i < 0 {
      NatToStringLeadingDigit(-i);
      assert IntToString(i)[1] == NatToString(-i)[0];
    } else {
      NatToStringLeadingDigit(i);
    }
  }

  /** What iterating a string visits: its one-character strings, in order. */
  function Characters(s: string): (cs: seq<JVal>)
    ensures |cs| == |s|
    ensures forall k :: 0 <= k < |s| ==> cs[k] == JStr([s[k]])
  {
    seq(|s|, k requires 0 <= k < |s| => JStr([s[k]]))
  }

  /** `str(v)`: what a report cell shows for a resolved value. Lists and
      objects get a placeholder in place of Python's repr. */
  function Str(v: JVal): (s: string)
    ensures v.JStr? ==> s == v.s
    ensures v.JInt? ==> s == IntToString(v.i)
    ensures v.JBool? ==> s == (if v.b then "True" else "False")
    ensures v.JNull? ==> s == "None"
  {
    match v
    case JNull => "None"
    case JBool(b) => if b then "True" else "False"
    case JInt(i) => IntToString(i)
    case JStr(s) => s
    case JList(_) => "[...]"
    case JObj(_) => "{...}"
  }
}
