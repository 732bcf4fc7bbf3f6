/** `_redact_user_data` (worker) and `sanitize_audit_snapshot` (services/audit.py). */
module Redaction {
  import opened Common
  import opened Json
  import opened Host

  predicate IsIncomeKey(k: string) {
    k == "monthly_income" || k == "monthly_inflow"
  }

  predicate IsAmountKey(k: string) {
    k == "loan_amount" || k == "monthly_outflow" || k == "average_balance" || k == "annual_turnover"
  }

  /** The eleven keys that both functions treat as personal data. */
  predicate IsPii(k: string) {
    || IsIncomeKey(k) || IsAmountKey(k)
    || k == "pan" || k == "name" || k == "pan_hash" || k == "existing_emis" || k == "bank_statement"
  }

  // ----- redaction before external_data is stored -----

  /** What redaction does to the value stored under `key`. */
  function RedactField(key: string, j: Json): (r: Json)
    decreases j, 1
  {
    if IsPii(key) then Str(MARK)
    else match j
      case Obj(_) => RedactItem(j)
      case Arr(items) => Arr(seq(|items|, i requires 0 <= i < |items| => RedactItem(items[i])))
      case _ => j
  }

  /** A dictionary is redacted field by field; anything else inside a list is left as it is, lists included. */
  function RedactItem(j: Json): (r: Json)
    decreases j, 0
  {
    match j
    case Obj(fields) => Obj(map k | k in fields :: RedactField(k, fields[k]))
    case _ => j
  }

  function Redact(d: Option<Dict>): (r: Dict)
    ensures d.None? ==> r == map[]
    ensures d.Some? ==> r.Keys == d.value.Keys
  {
    if d.None? then map[] else RedactItem(Obj(d.value)).fields
  }

  // ----- sanitizing before an audit entry is written -----

  function IncomeBand(income: real): string {
    if income <= 0.0 then "UNKNOWN"
    else if income < 25000.0 then "0-25K"
    else if income < 50000.0 then "25K-50K"
    else if income < 100000.0 then "50K-1L"
    else if income < 200000.0 then "1L-2L"
    else "2L+"
  }

  function AmountBand(amount: real): string {
    if amount <= 0.0 then "UNKNOWN"
    else if amount < 100000.0 then "0-1L"
    else if amount < 500000.0 then "1L-5L"
    else if amount < 1000000.0 then "5L-10L"
    else "10L+"
  }

  /** `float(value or 0)`, None when it raises. */
  function CoerceFloat(h: Host, j: Json): Option<real> {
    if !Truthy(j) then Some(0.0)
    else match ToFloat(h, j)
      case Ok(x) => Some(x)
      case Raised => None
  }

  function SafeLabel(h: Host, key: string, j: Json): string {
    var x := CoerceFloat(h, j);
    if IsIncomeKey(key) && x.Some? then IncomeBand(x.value)
    else if IsAmountKey(key) && x.Some? then AmountBand(x.value)
    else MARK
  }

  function Sanitize(h: Host, j: Json): (r: Json)
    decreases j
  {
    match j
    case Obj(fields) =>
      Obj(map k | k in fields :: if IsPii(k) then Str(SafeLabel(h, k, fields[k])) else Sanitize(h, fields[k]))
    case Arr(items) =>
      Arr(seq(|items|, i requires 0 <= i < |items| => Sanitize(h, items[i])))
    case _ => j
  }

  // ----- what the sanitizer guarantees -----

  const PERSONAL_KEYS := {"name", "pan", "pan_hash", "monthly_income", "existing_emis", "loan_amount", "monthly_inflow",
                          "monthly_outflow", "average_balance", "annual_turnover", "bank_statement"}

  const LABELS := {"***REDACTED***", "UNKNOWN", "0-25K", "25K-50K", "50K-1L", "1L-2L", "2L+",
                   "0-1L", "1L-5L", "5L-10L", "10L+"}

  /** Every personal-data key, at any depth, holds a label and nothing else. */
  predicate PiiFree(j: Json) {
    match j
    case Obj(fields) =>
      forall k | k in fields ::
        if k in PERSONAL_KEYS then fields[k].Str? && fields[k].s in LABELS else PiiFree(fields[k])
    case Arr(items) => forall i | 0 <= i < |items| :: PiiFree(items[i])
    case _ => true
  }

  lemma {:induction false} SanitizedIsPiiFree(h: Host, j: Json)
    ensures PiiFree(Sanitize(h, j))
  {
    match j
    case Obj(fields) =>
      forall k | k in fields
        ensures var v := Sanitize(h, j).fields[k]; if k in PERSONAL_KEYS then v.Str? && v.s in LABELS else PiiFree(v)
      {
        if !IsPii(k) { SanitizedIsPiiFree(h, fields[k]); }
      }
    case Arr(items) =>
      forall i | 0 <= i < |items| { SanitizedIsPiiFree(h, items[i]); }
    case _ =>
  }

  /** Same document up to personal data, and each personal value carries the same label. */
  predicate Indistinct(h: Host, a: Json, b: Json)
    decreases a
  {
    match (a, b)
    case (Obj(f), Obj(g)) =>
      && f.Keys == g.Keys
      && forall k | k in f ::
        if IsPii(k) then SafeLabel(h, k, f[k]) == SafeLabel(h, k, g[k]) else Indistinct(h, f[k], g[k])
    case (Arr(s), Arr(t)) => |s| == |t| && forall i | 0 <= i < |s| :: Indistinct(h, s[i], t[i])
    case _ => a == b
  }

  /** An audit snapshot reveals exactly the part outside the personal keys and each personal value's label. */
  lemma {:induction false} SanitizeRevealsOnlyLabels(h: Host, a: Json, b: Json)
    ensures Sanitize(h, a) == Sanitize(h, b) <==> Indistinct(h, a, b)
    decreases a
  {
    match (a, b)
    case (Obj(f), Obj(g)) =>
      var x, y := Sanitize(h, a).fields, Sanitize(h, b).fields;
      assert x.Keys == f.Keys && y.Keys == g.Keys;
      forall k | k in f && k in g
        ensures x[k] == y[k] <==>
          if IsPii(k) then SafeLabel(h, k, f[k]) == SafeLabel(h, k, g[k]) else Indistinct(h, f[k], g[k])
      {
        SanitizeRevealsOnlyLabels(h, f[k], g[k]);
      }
      if Indistinct(h, a, b) { assert x == y; }
      if x == y { assert forall k :: k in f <==> k in g; }
    case (Arr(s), Arr(t)) =>
      var x, y := Sanitize(h, a).items, Sanitize(h, b).items;
      forall i | 0 <= i < |s| && i < |t|
        ensures x[i] == y[i] <==> Indistinct(h, s[i], t[i])
      {
        SanitizeRevealsOnlyLabels(h, s[i], t[i]);
      }
      assert |x| == |s| && |y| == |t|;
    case _ =>
  }

  /** Applying the sanitizer a third time changes nothing more. */
  lemma {:induction false} SanitizeSettlesAfterTwo(h: Host, j: Json)
    requires RejectsLabels(h)
    ensures Sanitize(h, Sanitize(h, Sanitize(h, j))) == Sanitize(h, Sanitize(h, j))
  {
    match j
    case Obj(fields) =>
      forall k | k in fields
        ensures Sanitize(h, Sanitize(h, Sanitize(h, j))).fields[k] == Sanitize(h, Sanitize(h, j)).fields[k]
      {
        if IsPii(k) {
          LabelsSanitizeToMark(h, k, SafeLabel(h, k, fields[k]));
          LabelsSanitizeToMark(h, k, MARK);
        } else {
          SanitizeSettlesAfterTwo(h, fields[k]);
        }
      }
    case Arr(items) =>
      forall i | 0 <= i < |items| { SanitizeSettlesAfterTwo(h, items[i]); }
    case _ =>
  }

  lemma LabelsSanitizeToMark(h: Host, k: string, text: string)
    requires RejectsLabels(h) && IsLabel(text)
    ensures SafeLabel(h, k, Str(text)) == MARK
  {
    assert h.parseFloat(text) == None;
  }

  /** ... but a second time can: a band is itself unreadable and becomes the redaction mark. */
  lemma {:induction false} SanitizeIsNotIdempotent(h: Host)
    requires RejectsLabels(h)
    ensures var once := Sanitize(h, Obj(map["monthly_income" := Num(30000.0)]));
            once.fields["monthly_income"] == Str("25K-50K") && Sanitize(h, once) != once
  {
    var once := Sanitize(h, Obj(map["monthly_income" := Num(30000.0)]));
    assert IsLabel("25K-50K");
    assert Sanitize(h, once).fields["monthly_income"] == Str(MARK);
  }

  /** No personal value, at any depth, is readable enough to be banded. */
  predicate Unbanded(h: Host, j: Json) {
    match j
    case Obj(fields) =>
      forall k | k in fields :: if IsPii(k) then SafeLabel(h, k, fields[k]) == MARK else Unbanded(h, fields[k])
    case Arr(items) => forall i | 0 <= i < |items| :: Unbanded(h, items[i])
    case _ => true
  }

  /** A second pass changes nothing exactly when the first banded nothing. */
  lemma {:induction false} SanitizeIdempotentIffUnbanded(h: Host, j: Json)
    requires RejectsLabels(h)
    ensures Sanitize(h, Sanitize(h, j)) == Sanitize(h, j) <==> Unbanded(h, j)
  {
    var once, twice := Sanitize(h, j), Sanitize(h, Sanitize(h, j));
    match j
    case Obj(fields) =>
      forall k | k in fields
        ensures twice.fields[k] == once.fields[k] <==>
                  if IsPii(k) then SafeLabel(h, k, fields[k]) == MARK else Unbanded(h, fields[k])
      {
        if IsPii(k) { LabelsSanitizeToMark(h, k, SafeLabel(h, k, fields[k])); }
        else { SanitizeIdempotentIffUnbanded(h, fields[k]); }
      }
      if Unbanded(h, j) { assert twice.fields == once.fields; }
    case Arr(items) =>
      forall i | 0 <= i < |items|
        ensures twice.items[i] == once.items[i] <==> Unbanded(h, items[i])
      {
        SanitizeIdempotentIffUnbanded(h, items[i]);
      }
      if Unbanded(h, j) { assert twice.items == once.items; }
    case _ =>
  }

  // ----- key by key -----

  /** What a label says of the value it stands for: above the first bound, or from it on, and below the second. */
  predicate InBand(s: string, x: real) {
    match s
    case "UNKNOWN" => x <= 0.0
    case "0-25K" => 0.0 < x < 25000.0
    case "25K-50K" => 25000.0 <= x < 50000.0
    case "50K-1L" => 50000.0 <= x < 100000.0
    case "1L-2L" => 100000.0 <= x < 200000.0
    case "2L+" => 200000.0 <= x
    case "0-1L" => 0.0 < x < 100000.0
    case "1L-5L" => 100000.0 <= x < 500000.0
    case "5L-10L" => 500000.0 <= x < 1000000.0
    case "10L+" => 1000000.0 <= x
    case _ => false
  }

  /** The number a personal value is read as: itself, the number of a text, nothing at all as zero. */
  function ReadAs(h: Host, j: Json): Option<real> {
    match j
    case Num(x) => Some(x)
    case Null => Some(0.0)
    case Bool(b) => Some(if b then 1.0 else 0.0)
    case Str(s) => if s == "" then Some(0.0) else h.parseFloat(s)
    case Arr(items) => if items == [] then Some(0.0) else None
    case Obj(fields) => if fields == map[] then Some(0.0) else None
  }

  const BANDED_AS_INCOME := {"monthly_income", "monthly_inflow"}

  const BANDED_AS_AMOUNT := {"loan_amount", "monthly_outflow", "average_balance", "annual_turnover"}

  /** Redaction marks every personal key; the sanitizer keeps the band of a readable amount and marks the rest. */
  lemma PersonalKeysAreHidden(h: Host, d: Dict, k: string)
    requires k in d && k in PERSONAL_KEYS
    ensures Redact(Some(d))[k] == Str("***REDACTED***")
    ensures var kept, x := Sanitize(h, Obj(d)).fields[k], ReadAs(h, d[k]);
            && kept.Str?
            && if x.Some? && k in BANDED_AS_INCOME
               then kept.s in {"UNKNOWN", "0-25K", "25K-50K", "50K-1L", "1L-2L", "2L+"} && InBand(kept.s, x.value)
               else if x.Some? && k in BANDED_AS_AMOUNT
               then kept.s in {"UNKNOWN", "0-1L", "1L-5L", "5L-10L", "10L+"} && InBand(kept.s, x.value)
               else kept.s == "***REDACTED***"
  {
    assert IsPii(k);
    assert Redact(Some(d))[k] == RedactField(k, d[k]);
    assert Sanitize(h, Obj(d)).fields[k] == Str(SafeLabel(h, k, d[k]));
    ReadAsFloat(h, d[k]);
    LabelIsBand(h, k, d[k]);
  }

  lemma ReadAsFloat(h: Host, j: Json)
    ensures CoerceFloat(h, j) == ReadAs(h, j)
  {
  }

  lemma LabelIsBand(h: Host, k: string, j: Json)
    ensures var text, x := SafeLabel(h, k, j), CoerceFloat(h, j);
            if x.Some? && k in BANDED_AS_INCOME
            then text in {"UNKNOWN", "0-25K", "25K-50K", "50K-1L", "1L-2L", "2L+"} && InBand(text, x.value)
            else if x.Some? && k in BANDED_AS_AMOUNT
            then text in {"UNKNOWN", "0-1L", "1L-5L", "5L-10L", "10L+"} && InBand(text, x.value)
            else text == "***REDACTED***"
  {
  }

  /** Every other key keeps its scalar under both, and keeps its list or dictionary as one of the same size. */
  lemma OtherKeysAreKept(h: Host, d: Dict, k: string)
    requires k in d && k !in PERSONAL_KEYS
    ensures var stored, kept := Redact(Some(d))[k], Sanitize(h, Obj(d)).fields[k];
            match d[k]
            case Obj(inner) => stored.Obj? && stored.fields.Keys == inner.Keys && kept == Sanitize(h, d[k])
                               && kept.Obj? && kept.fields.Keys == inner.Keys && stored.fields == Redact(Some(inner))
            case Arr(items) => stored.Arr? && |stored.items| == |items| && kept.Arr? && |kept.items| == |items|
                               && forall i | 0 <= i < |items| ::
                                    && kept.items[i] == Sanitize(h, items[i])
                                    && stored.items[i] == if items[i].Obj? then Obj(Redact(Some(items[i].fields)))
                                                          else items[i]
            case _ => stored == d[k] && kept == d[k]
  {
    assert !IsPii(k);
    assert Redact(Some(d))[k] == RedactField(k, d[k]);
  }

  // ----- redaction against sanitizing -----

  /** No list stands directly inside a list, outside personal keys. */
  predicate FlatLists(j: Json) {
    match j
    case Obj(fields) => forall k | k in fields && !IsPii(k) :: FlatLists(fields[k])
    case Arr(items) => forall i | 0 <= i < |items| :: !items[i].Arr? && FlatLists(items[i])
    case _ => true
  }

  lemma {:induction false} SanitizeFixesRedactedField(h: Host, key: string, j: Json)
    requires RejectsLabels(h) && !IsPii(key) && FlatLists(j)
    ensures Sanitize(h, RedactField(key, j)) == RedactField(key, j)
    decreases j, 1
  {
    match j
    case Obj(_) => SanitizeFixesRedactedItem(h, j);
    case Arr(items) =>
      forall i | 0 <= i < |items| { SanitizeFixesRedactedItem(h, items[i]); }
    case _ =>
  }

  lemma {:induction false} SanitizeFixesRedactedItem(h: Host, j: Json)
    requires RejectsLabels(h) && FlatLists(j) && !j.Arr?
    ensures Sanitize(h, RedactItem(j)) == RedactItem(j)
    decreases j, 0
  {
    match j
    case Obj(fields) =>
      var r := RedactItem(j).fields;
      forall k | k in fields
        ensures Sanitize(h, RedactItem(j)).fields[k] == r[k]
      {
        if IsPii(k) {
          LabelsSanitizeToMark(h, k, MARK);
        } else {
          SanitizeFixesRedactedField(h, k, fields[k]);
        }
      }
      assert Sanitize(h, RedactItem(j)).fields == r;
    case _ =>
  }

  /** On documents without nested lists the sanitizer finds nothing left to do after redaction. */
  lemma SanitizeFixesRedacted(h: Host, d: Dict)
    requires RejectsLabels(h) && FlatLists(Obj(d))
    ensures Sanitize(h, Obj(Redact(Some(d)))) == Obj(Redact(Some(d)))
    ensures PiiFree(Obj(Redact(Some(d))))
  {
    SanitizeFixesRedactedItem(h, Obj(d));
    SanitizedIsPiiFree(h, Obj(Redact(Some(d))));
  }

  /** With a nested list redaction lets a PAN through; the sanitizer does not. */
  lemma NestedListEscapesRedaction(h: Host, pan: string)
    requires pan !in LABELS
    ensures var d := map["rows" := Arr([Arr([Obj(map["pan" := Str(pan)])])])];
            !PiiFree(Obj(Redact(Some(d)))) && PiiFree(Sanitize(h, Obj(d)))
  {
    var leak := Obj(map["pan" := Str(pan)]);
    var d := map["rows" := Arr([Arr([leak])])];
    var r := Redact(Some(d));
    assert !IsPii("rows");
    var rows := Arr([Arr([leak])]);
    assert r["rows"] == RedactField("rows", rows);
    assert rows.items[0] == Arr([leak]) && RedactField("rows", rows).items[0] == RedactItem(rows.items[0]);
    assert leak.fields["pan"] == Str(pan);
    assert !PiiFree(leak);
    assert !PiiFree(Arr([leak])) by { assert Arr([leak]).items[0] == leak; }
    assert !PiiFree(r["rows"]);
    SanitizedIsPiiFree(h, Obj(d));
  }

  /** What stands in a list inside a list, which redaction copies, holds no readable personal data. */
  predicate NestedClean(j: Json) {
    match j
    case Obj(fields) => forall k | k in fields && !IsPii(k) :: NestedClean(fields[k])
    case Arr(items) => forall i | 0 <= i < |items| :: if items[i].Arr? then PiiFree(items[i]) else NestedClean(items[i])
    case _ => true
  }

  lemma {:induction false} RedactedFieldPiiFree(key: string, j: Json)
    requires !IsPii(key)
    ensures PiiFree(RedactField(key, j)) <==> NestedClean(j)
    decreases j, 1
  {
    match j
    case Obj(_) => RedactedItemPiiFree(j);
    case Arr(items) =>
      var r := RedactField(key, j).items;
      forall i | 0 <= i < |items|
        ensures PiiFree(r[i]) <==> if items[i].Arr? then PiiFree(items[i]) else NestedClean(items[i])
      {
        assert r[i] == RedactItem(items[i]);
        if !items[i].Arr? { RedactedItemPiiFree(items[i]); }
      }
    case _ =>
  }

  lemma {:induction false} RedactedItemPiiFree(j: Json)
    requires !j.Arr?
    ensures PiiFree(RedactItem(j)) <==> NestedClean(j)
    decreases j, 0
  {
    match j
    case Obj(fields) =>
      var r := RedactItem(j).fields;
      forall k | k in fields
        ensures (if k in PERSONAL_KEYS then r[k].Str? && r[k].s in LABELS else PiiFree(r[k])) <==>
                IsPii(k) || NestedClean(fields[k])
      {
        assert r[k] == RedactField(k, fields[k]);
        if !IsPii(k) { RedactedFieldPiiFree(k, fields[k]); }
      }
      assert r.Keys == fields.Keys;
    case _ =>
  }

  /** Redaction alone leaves no personal data exactly when none stands in a list directly inside a list. */
  lemma RedactPiiFreeIffNestedClean(d: Dict)
    ensures PiiFree(Obj(Redact(Some(d)))) <==> NestedClean(Obj(d))
  {
    RedactedItemPiiFree(Obj(d));
  }

  // ----- the loops that fill a local dict -----

  method RedactUserData(d: Option<Dict>) returns (redacted: Dict)
    ensures redacted == Redact(d)
  {
    redacted := map[];
    if d.None? { return; }
    redacted := RedactLoop(Obj(d.value));
  }

  method RedactLoop(j: Json) returns (redacted: Dict)
    requires j.Obj?
    ensures Obj(redacted) == RedactItem(j)
    decreases j, 0
  {
    redacted := map[];
    var todo := j.fields.Keys;
    while todo != {}
      invariant todo <= j.fields.Keys
      invariant redacted.Keys == j.fields.Keys - todo
      invariant forall k | k in redacted :: redacted[k] == RedactField(k, j.fields[k])
      decreases |todo|
    {
      var key :| key in todo;
      var out := RedactValue(key, j.fields[key]);
      redacted := redacted[key := out];
      todo := todo - {key};
    }
    assert redacted == RedactItem(j).fields;
  }

  method RedactValue(key: string, value: Json) returns (out: Json)
    ensures out == RedactField(key, value)
    decreases value, 1
  {
    if IsPii(key) {
      out := Str(MARK);
    } else if value.Obj? {
      var inner := RedactLoop(value);
      out := Obj(inner);
    } else if value.Arr? {
      var items := RedactItems(value);
      out := Arr(items);
    } else {
      out := value;
    }
  }

  method RedactItems(j: Json) returns (items: seq<Json>)
    requires j.Arr?
    ensures |items| == |j.items| && forall i | 0 <= i < |items| :: items[i] == RedactItem(j.items[i])
    decreases j, 0
  {
    items := [];
    for i := 0 to |j.items|
      invariant |items| == i
      invariant forall n | 0 <= n < i :: items[n] == RedactItem(j.items[n])
    {
      if j.items[i].Obj? {
        var inner := RedactLoop(j.items[i]);
        items := items + [Obj(inner)];
      } else {
        items := items + [j.items[i]];
      }
    }
  }

  method SanitizeAuditSnapshot(h: Host, snapshot: Json) returns (sanitized: Json)
    ensures sanitized == Sanitize(h, snapshot)
    decreases snapshot
  {
    match snapshot
    case Obj(fields) =>
      var out: Dict := map[];
      var todo := fields.Keys;
      while todo != {}
        invariant todo <= fields.Keys
        invariant out.Keys == fields.Keys - todo
        invariant forall k | k in out :: out[k] == Sanitize(h, snapshot).fields[k]
        decreases |todo|
      {
        var key :| key in todo;
        if IsPii(key) {
          out := out[key := Str(SafeLabel(h, key, fields[key]))];
        } else {
          var inner := SanitizeAuditSnapshot(h, fields[key]);
          out := out[key := inner];
        }
        todo := todo - {key};
      }
      return Obj(out);
    case Arr(items) =>
      var out: seq<Json> := [];
      for i := 0 to |items|
        invariant |out| == i
        invariant forall n | 0 <= n < i :: out[n] == Sanitize(h, items[n])
      {
        var inner := SanitizeAuditSnapshot(h, items[i]);
        out := out + [inner];
      }
      return Arr(out);
    case _ =>
      return snapshot;
  }
}
