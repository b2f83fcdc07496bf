/**
 * Call-script templates: an owner-checked template store with a listing
 * cache, and `processTemplate`, which substitutes `{{key}}` tokens with the
 * values of a variables object, key after key.
 */
module Templates {
  import opened Wrappers
  import opened Text
  import opened Errors

  /** A variables object, as the sequence of its entries in
      `Object.entries` order (insertion order, since no key is an array
      index). */
  type Variables = seq<(string, string)>

  // ---------------------------------------------------------------------------
  // Substitution
  // ---------------------------------------------------------------------------

  /** The text `{{key}}` the RegExp built from the key matches. */
  function Token(key: string): (t: string)
    ensures |t| == |key| + 4
  {
    "{{" + key + "}}"
  }

  /** `s.replace(/pat/g, v)` for a literal pattern and a replacement without
      `$`: the string is scanned from the left, each match is replaced and the
      scan resumes after it, and a failed position advances by one. */
  function ReplaceAll(s: string, pat: string, v: string): (r: string)
    requires |pat| > 0
    decreases |s|
  {
    if |s| < |pat| then s
    else if s[..|pat|] == pat then v + ReplaceAll(s[|pat|..], pat, v)
    else [s[0]] + ReplaceAll(s[1..], pat, v)
  }

  /** The characters a regular expression reads as syntax outside a
      character class (`^$\.*+?()[|`), together with `]`, `{` and `}`, which
      without the `u` flag are literal unless they form a quantifier and are
      excluded here for simplicity. */
  predicate RegExpSyntax(c: char)
  {
    || c == '^' || c == '$' || c == '\\' || c == '.' || c == '*' || c == '+' || c == '?'
    || c == '(' || c == ')' || c == '[' || c == ']' || c == '{' || c == '}' || c == '|'
  }

  /** Text that makes `{text}` a braced quantifier: `n`, `n,` or `n,m`. */
  predicate QuantifierBody(key: string)
  {
    exists c :: 0 < c <= |key| && AllDigits(key[..c]) && (c == |key| || (key[c] == ',' && AllDigits(key[c + 1..])))
  }

  /** Keys for which `new RegExp('{{' + key + '}}', 'g')` matches the token
      literally: no syntax character, and not a quantifier body (`{{12}}`
      would repeat the first brace twelve times). Underscores, dashes and
      spaces are literal. */
  predicate PlainKey(key: string)
  {
    && (forall i :: 0 <= i < |key| ==> !RegExpSyntax(key[i]))
    && !QuantifierBody(key)
  }

  /** A key that does not start with a digit is no quantifier body. */
  lemma LetterStart(key: string)
    requires |key| > 0 && !IsDigit(key[0])
    ensures !QuantifierBody(key)
  {
    forall c | 0 < c <= |key| ensures !AllDigits(key[..c]) {
      assert key[..c][0] == key[0];
    }
  }

  /** The usual key spellings, with underscores, dashes, spaces or a leading
      digit, are taken literally. */
  lemma LiteralKeys()
    ensures PlainKey("first_name") && PlainKey("last-name") && PlainKey("full name") && PlainKey("2nd")
  {
    LetterStart("first_name");
    assert PlainKey("first_name");
    LetterStart("last-name");
    assert PlainKey("last-name");
    LetterStart("full name");
    assert PlainKey("full name");
    forall c | 0 < c <= 3 ensures !(AllDigits("2nd"[..c]) && (c == 3 || ("2nd"[c] == ',' && AllDigits("2nd"[c + 1..])))) {
      if c >= 2 {
        assert "2nd"[..c][1] == 'n';
      } else {
        assert "2nd"[1] == 'n';
      }
    }
  }

  /** Digit keys and keys with syntax characters are not taken literally. */
  lemma PatternKeys()
    ensures !PlainKey("12") && !PlainKey("1,") && !PlainKey("1,5") && !PlainKey("a.b")
  {
    assert AllDigits("12"[..2]);
    assert AllDigits("1,"[..1]) && "1,"[1] == ',' && "1,"[2..] == "";
    assert AllDigits("1,5"[..1]) && "1,5"[1] == ',' && AllDigits("1,5"[2..]);
    assert RegExpSyntax("a.b"[1]);
  }

  /** Values `replace` inserts verbatim: no `$` substitution patterns. */
  predicate PlainValue(v: string) { forall i :: 0 <= i < |v| ==> v[i] != '$' }

  predicate PlainVariables(vars: Variables)
  {
    forall i :: 0 <= i < |vars| ==> PlainKey(vars[i].0) && PlainValue(vars[i].1)
  }

  /** The content after the entries have been applied one after another. */
  function Render(content: string, vars: Variables): string
  {
    if vars == [] then content
    else
      var last := vars[|vars| - 1];
      ReplaceAll(Render(content, vars[..|vars| - 1]), Token(last.0), last.1)
  }

  /** A pattern that does not occur is not replaced. */
  lemma {:induction false} ReplaceAbsent(s: string, pat: string, v: string)
    requires |pat| > 0 && !Contains(s, pat)
    ensures ReplaceAll(s, pat, v) == s
    decreases |s|
  {
    if |s| >= |pat| {
      assert !OccursAt(s, pat, 0);
      assert !Contains(s[1..], pat) by {
        forall i: nat | i + |pat| <= |s| - 1 ensures !OccursAt(s[1..], pat, i) {
          assert s[1..][i..i + |pat|] == s[i + 1..i + 1 + |pat|];
          assert !OccursAt(s, pat, i + 1);
        }
      }
      ReplaceAbsent(s[1..], pat, v);
    }
  }

  /** v and pat have no character in common. */
  predicate Disjoint(v: string, pat: string)
  {
    forall a, b :: 0 <= a < |v| && 0 <= b < |pat| ==> v[a] != pat[b]
  }

  lemma DisjointFirst(v: string, pat: string, o: string)
    requires |v| > 0 && Disjoint(v, pat) && v <= o
    ensures o[0] !in pat
  {
    assert o[0] == v[0];
  }

  /** A prefix of the output made only of pattern characters was copied from
      the input, and no match of the pattern started inside it. */
  lemma {:induction false} CopiedPrefix(s: string, pat: string, v: string, j: nat)
    requires |pat| > 0 && |v| > 0 && Disjoint(v, pat)
    requires j <= |ReplaceAll(s, pat, v)|
    requires forall t :: 0 <= t < j ==> ReplaceAll(s, pat, v)[t] in pat
    ensures j <= |s| && ReplaceAll(s, pat, v)[..j] == s[..j]
    ensures forall p: nat :: p + |pat| <= j ==> !OccursAt(s, pat, p)
    decreases |s|
  {
    var o := ReplaceAll(s, pat, v);
    if |s| < |pat| {
    } else if s[..|pat|] == pat {
      if j > 0 {
        DisjointFirst(v, pat, o);
        assert false;
      }
    } else if j > 0 {
      var o' := ReplaceAll(s[1..], pat, v);
      assert o == [s[0]] + o';
      forall t | 0 <= t < j - 1 ensures o'[t] in pat {
        assert o'[t] == o[t + 1];
      }
      CopiedPrefix(s[1..], pat, v, j - 1);
      assert o[..j] == [s[0]] + o'[..j - 1];
      assert s[..j] == [s[0]] + s[1..][..j - 1];
      forall p: nat | p + |pat| <= j ensures !OccursAt(s, pat, p) {
        if p > 0 {
          assert !OccursAt(s[1..], pat, p - 1);
          assert s[1..][p - 1..p - 1 + |pat|] == s[p..p + |pat|];
        }
      }
    }
  }

  /** Replacement is global: when the value is non-empty and shares no
      character with the pattern, no occurrence of the pattern is left. */
  lemma {:induction false} NoTokenLeft(s: string, pat: string, v: string)
    requires |pat| > 0 && |v| > 0 && Disjoint(v, pat)
    ensures !Contains(ReplaceAll(s, pat, v), pat)
    decreases |s|
  {
    var o := ReplaceAll(s, pat, v);
    if |s| < |pat| {
      assert |o| < |pat|;
    } else if s[..|pat|] == pat {
      var o' := ReplaceAll(s[|pat|..], pat, v);
      NoTokenLeft(s[|pat|..], pat, v);
      forall i: nat | i + |pat| <= |o| ensures !OccursAt(o, pat, i) {
        if i < |v| {
          assert o[i] == v[i] && v[i] != pat[0];
        } else {
          assert o[i..i + |pat|] == o'[i - |v|..i - |v| + |pat|];
          assert !OccursAt(o', pat, i - |v|);
        }
      }
    } else {
      var o' := ReplaceAll(s[1..], pat, v);
      NoTokenLeft(s[1..], pat, v);
      forall i: nat | i + |pat| <= |o| ensures !OccursAt(o, pat, i) {
        if i > 0 {
          assert o[i..i + |pat|] == o'[i - 1..i - 1 + |pat|];
          assert !OccursAt(o', pat, i - 1);
        } else if OccursAt(o, pat, 0) {
          forall t | 0 <= t < |pat| ensures o[t] in pat {
            assert o[t] == pat[t];
          }
          CopiedPrefix(s, pat, v, |pat|);
          assert false;
        }
      }
    }
  }

  /** Without the hypotheses this fails: a value that is empty (or shares
      characters with the token) can make a new token out of the text around
      a replaced one. */
  lemma ReplaceCanLeaveToken()
    ensures ReplaceAll("{{k{{k}}}}", Token("k"), "") == "{{k}}"
    ensures Contains(ReplaceAll("{{k{{k}}}}", Token("k"), ""), Token("k"))
  {
    var pat := Token("k");
    assert pat == "{{k}}";
    var s := "{{k{{k}}}}";
    assert s[..5] != pat by { assert s[3] != pat[3]; }
    assert s[1..][..5] != pat by { assert s[1..][1] != pat[1]; }
    assert s[2..][..5] != pat by { assert s[2..][2] != pat[2]; }
    assert s[3..][..5] == pat;
    assert s[1..][1..] == s[2..] && s[2..][1..] == s[3..] && s[3..][5..] == "}}";
    calc {
      ReplaceAll(s, pat, "");
      [s[0]] + ReplaceAll(s[1..], pat, "");
      [s[0]] + [s[1]] + ReplaceAll(s[2..], pat, "");
      [s[0]] + [s[1]] + [s[2]] + ReplaceAll(s[3..], pat, "");
      [s[0]] + [s[1]] + [s[2]] + ("" + ReplaceAll("}}", pat, ""));
      "{{k}}";
    }
    assert OccursAt("{{k}}", pat, 0);
  }

  /** When none of the keys' tokens occurs in the content, the content comes
      back unchanged: unresolved tokens stay verbatim. */
  lemma {:induction false} RenderUntouched(content: string, vars: Variables)
    requires forall i :: 0 <= i < |vars| ==> !Contains(content, Token(vars[i].0))
    ensures Render(content, vars) == content
  {
    if vars != [] {
      var init := vars[..|vars| - 1];
      RenderUntouched(content, init);
      ReplaceAbsent(content, Token(vars[|vars| - 1].0), vars[|vars| - 1].1);
    }
  }

  /** Entries apply in order: rendering one more entry replaces its token in
      the result of the earlier ones. */
  lemma RenderSnoc(content: string, vars: Variables, key: string, value: string)
    ensures Render(content, vars + [(key, value)]) == ReplaceAll(Render(content, vars), Token(key), value)
  {
    assert (vars + [(key, value)])[..|vars|] == vars;
  }

  /** A later key replaces a token that an earlier value introduced. */
  lemma LaterKeySeesEarlierValue()
    ensures Render("{{a}}", [("a", "{{b}}"), ("b", "x")]) == "x"
  {
    var vars: Variables := [("a", "{{b}}"), ("b", "x")];
    assert vars[..1] == [("a", "{{b}}")] && vars[..1][..0] == [];
    assert "{{a}}"[..5] == Token("a");
    assert "{{a}}"[5..] == [];
    assert Render("{{a}}", vars[..1]) == "{{b}}";
    assert "{{b}}"[..5] == Token("b");
    assert "{{b}}"[5..] == [];
  }

  // ---------------------------------------------------------------------------
  // The template store
  // ---------------------------------------------------------------------------

  datatype Template = Template(
    id: nat,
    userId: string,
    name: string,
    description: Option<string>,
    content: string,
    variables: Variables,
    isActive: bool)

  /** The fields an update may set; absent fields keep their value. */
  datatype TemplatePatch = TemplatePatch(
    name: Option<string>,
    description: Option<string>,
    content: Option<string>,
    variables: Option<Variables>,
    isActive: Option<bool>)

  function Patched(t: Template, p: TemplatePatch): (u: Template)
    ensures u.id == t.id && u.userId == t.userId
    ensures u.content == (if p.content.Some? then p.content.value else t.content)
    ensures u.name == (if p.name.Some? then p.name.value else t.name)
    ensures u.description == (if p.description.Some? then p.description else t.description)
    ensures u.variables == (if p.variables.Some? then p.variables.value else t.variables)
    ensures u.isActive == (if p.isActive.Some? then p.isActive.value else t.isActive)
  {
    Template(t.id, t.userId, p.name.GetOr(t.name),
             if p.description.Some? then p.description else t.description,
             p.content.GetOr(t.content), p.variables.GetOr(t.variables), p.isActive.GetOr(t.isActive))
  }

  /** The `filters` argument of `getTemplates`. */
  datatype Filters = Filters(search: Option<string>, isActive: Option<bool>)

  function LowerChar(c: char): char
  {
    if IsUpper(c) then (c as int + 32) as char else c
  }

  /** Case folding of ASCII letters. */
  function Lower(s: string): (r: string)
    ensures |r| == |s|
  {
    seq(|s|, i requires 0 <= i < |s| => LowerChar(s[i]))
  }

  /** `contains` with `mode: 'insensitive'`. */
  predicate ContainsInsensitive(s: string, pat: string)
  {
    Contains(Lower(s), Lower(pat))
  }

  /** The `where` clause of `getTemplates`: the owner, then the search (only
      when it is a non-empty string) on the name or the description, then the
      active flag when one is given. */
  predicate Matches(t: Template, userId: string, filters: Option<Filters>)
  {
    && t.userId == userId
    && (filters.Some? && filters.value.search.Some? && filters.value.search.value != "" ==>
          || ContainsInsensitive(t.name, filters.value.search.value)
          || (t.description.Some? && ContainsInsensitive(t.description.value, filters.value.search.value)))
    && (filters.Some? && filters.value.isActive.Some? ==> t.isActive == filters.value.isActive.value)
  }

  /** The templates the listing query returns, by id. */
  function Listing(templates: map<nat, Template>, userId: string, filters: Option<Filters>): (r: map<nat, Template>)
    ensures forall id :: id in r <==> id in templates && Matches(templates[id], userId, filters)
    ensures forall id :: id in r ==> r[id] == templates[id] && r[id].userId == userId
  {
    map id | id in templates && Matches(templates[id], userId, filters) :: templates[id]
  }

  /** A listing-cache key, `templates:${userId}:${JSON.stringify(filters)}`. */
  datatype ListingKey = ListingKey(userId: string, filters: Option<Filters>)

  /** Removes every cached listing of the user, whatever its filters (what a
      `delPattern('templates:${userId}:*')` achieves). */
  function Invalidate<V>(cache: map<ListingKey, V>, userId: string): (c: map<ListingKey, V>)
    ensures forall k :: k in c <==> k in cache && k.userId != userId
    ensures forall k :: k in c ==> c[k] == cache[k]
  {
    map k | k in cache && k.userId != userId :: cache[k]
  }

  /** Every template that differs between m and m' belongs to the user. */
  ghost predicate OnlyUserChanged(m: map<nat, Template>, m': map<nat, Template>, userId: string)
  {
    forall id :: id in m || id in m' ==>
      || (id in m && id in m' && m[id] == m'[id])
      || ((id in m ==> m[id].userId == userId) && (id in m' ==> m'[id].userId == userId))
  }

  /** Changing only the user's own templates leaves every other user's
      listing as it was. */
  lemma ListingOfOthers(m: map<nat, Template>, m': map<nat, Template>, userId: string, other: string, f: Option<Filters>)
    requires userId != other
    requires OnlyUserChanged(m, m', userId)
    ensures Listing(m, other, f) == Listing(m', other, f)
  {
    var a := Listing(m, other, f);
    var b := Listing(m', other, f);
    forall id | id in a ensures id in b && b[id] == a[id] { }
    forall id | id in b ensures id in a { }
  }

  const NotFoundOrUnauthorized: string := "Template not found or unauthorized"
  const TemplateNotFound: string := "Template not found"

  /** The error `Object.entries(undefined)` throws. */
  const NotAnObject: string := "Cannot convert undefined or null to object"

  predicate Owns(templates: map<nat, Template>, templateId: nat, userId: string)
  {
    templateId in templates && templates[templateId].userId == userId
  }

  /** `TemplateService` over an in-memory template table and listing cache. */
  class TemplateService {
    var templates: map<nat, Template>
    var nextId: nat
    var cache: map<ListingKey, map<nat, Template>>

    ghost predicate Valid()
      reads this
    {
      && (forall id :: id in templates ==> id < nextId && templates[id].id == id)
      && (forall k :: k in cache ==> cache[k] == Listing(templates, k.userId, k.filters))
    }

    constructor()
      ensures Valid() && templates == map[] && nextId == 0 && cache == map[]
    {
      templates := map[];
      nextId := 0;
      cache := map[];
    }

    /** Keeps the cache coherent after the user's templates changed. */
    lemma CoherentAfter(oldTemplates: map<nat, Template>, oldCache: map<ListingKey, map<nat, Template>>, userId: string)
      requires forall k :: k in oldCache ==> oldCache[k] == Listing(oldTemplates, k.userId, k.filters)
      requires OnlyUserChanged(oldTemplates, templates, userId)
      requires cache == Invalidate(oldCache, userId)
      ensures forall k :: k in cache ==> cache[k] == Listing(templates, k.userId, k.filters)
    {
      forall k | k in cache ensures cache[k] == Listing(templates, k.userId, k.filters) {
        ListingOfOthers(oldTemplates, templates, userId, k.userId, k.filters);
      }
    }

    /** `createTemplate`. The row's `isActive` is the column default the
        database schema gives, `columnDefault` here: the schema is not part
        of this model. */
    method CreateTemplate(userId: string, name: string, description: Option<string>, content: string, variables: Variables,
                          columnDefault: bool)
      returns (t: Template)
      requires Valid()
      modifies this
      ensures Valid()
      ensures t == Template(old(nextId), userId, name, description, content, variables, columnDefault)
      ensures t.id !in old(templates)
      ensures templates == old(templates)[t.id := t] && nextId == old(nextId) + 1
      ensures cache == Invalidate(old(cache), userId)
    {
      t := Template(nextId, userId, name, description, content, variables, columnDefault);
      ghost var oldTemplates := templates;
      ghost var oldCache := cache;
      templates := templates[nextId := t];
      nextId := nextId + 1;
      cache := Invalidate(cache, userId);
      CoherentAfter(oldTemplates, oldCache, userId);
    }

    /** `getTemplates`: a cached listing is returned as it is; otherwise the
        query runs and its result is cached. */
    method GetTemplates(userId: string, filters: Option<Filters>) returns (r: map<nat, Template>)
      requires Valid()
      modifies this
      ensures Valid()
      ensures r == Listing(templates, userId, filters)
      ensures templates == old(templates) && nextId == old(nextId)
      ensures cache == old(cache)[ListingKey(userId, filters) := r]
    {
      var key := ListingKey(userId, filters);
      if key in cache {
        r := cache[key];
      } else {
        r := Listing(templates, userId, filters);
        cache := cache[key := r];
      }
    }

    /** `updateTemplate` */
    method UpdateTemplate(templateId: nat, userId: string, patch: TemplatePatch) returns (r: Result<Template>)
      requires Valid()
      modifies this
      ensures Valid()
      ensures nextId == old(nextId)
      ensures !Owns(old(templates), templateId, userId) ==>
        r == Err(Other(NotFoundOrUnauthorized)) && templates == old(templates) && cache == old(cache)
      ensures Owns(old(templates), templateId, userId) ==>
        && r == Ok(Patched(old(templates)[templateId], patch))
        && templates == old(templates)[templateId := r.value]
        && cache == Invalidate(old(cache), userId)
    {
      if templateId !in templates || templates[templateId].userId != userId {
        return Err(Other(NotFoundOrUnauthorized));
      }
      var updated := Patched(templates[templateId], patch);
      ghost var oldTemplates := templates;
      ghost var oldCache := cache;
      templates := templates[templateId := updated];
      cache := Invalidate(cache, userId);
      CoherentAfter(oldTemplates, oldCache, userId);
      r := Ok(updated);
    }

    /** `deleteTemplate` */
    method DeleteTemplate(templateId: nat, userId: string) returns (r: Result<bool>)
      requires Valid()
      modifies this
      ensures Valid()
      ensures nextId == old(nextId)
      ensures !Owns(old(templates), templateId, userId) ==>
        r == Err(Other(NotFoundOrUnauthorized)) && templates == old(templates) && cache == old(cache)
      ensures Owns(old(templates), templateId, userId) ==>
        && r == Ok(true)
        && templates == old(templates) - {templateId}
        && cache == Invalidate(old(cache), userId)
    {
      if templateId !in templates || templates[templateId].userId != userId {
        return Err(Other(NotFoundOrUnauthorized));
      }
      ghost var oldTemplates := templates;
      ghost var oldCache := cache;
      templates := templates - {templateId};
      cache := Invalidate(cache, userId);
      CoherentAfter(oldTemplates, oldCache, userId);
      r := Ok(true);
    }

    /** `processTemplate`: the stored content with each entry's token
        replaced in turn. Without a variables object, `Object.entries`
        throws. */
    method ProcessTemplate(templateId: nat, variables: Option<Variables>) returns (r: Result<string>)
      requires variables.Some? ==> PlainVariables(variables.value)
      ensures templateId !in templates ==> r == Err(Other(TemplateNotFound))
      ensures templateId in templates && variables.None? ==> r == Err(Other(NotAnObject))
      ensures templateId in templates && variables.Some? ==>
        r == Ok(Render(templates[templateId].content, variables.value))
      ensures templateId in templates && variables == Some([]) ==> r == Ok(templates[templateId].content)
    {
      if templateId !in templates {
        return Err(Other(TemplateNotFound));
      }
      if variables.None? {
        return Err(Other(NotAnObject));
      }
      var vars := variables.value;
      var processed := templates[templateId].content;
      for i := 0 to |vars|
        invariant processed == Render(templates[templateId].content, vars[..i])
      {
        RenderSnoc(templates[templateId].content, vars[..i], vars[i].0, vars[i].1);
        assert vars[..i + 1] == vars[..i] + [(vars[i].0, vars[i].1)];
        processed := ReplaceAll(processed, Token(vars[i].0), vars[i].1);
      }
      assert vars[..|vars|] == vars;
      r := Ok(processed);
    }

    /** `duplicateTemplate`: an inactive copy owned by the caller. */
    method DuplicateTemplate(templateId: nat, userId: string) returns (r: Result<Template>)
      requires Valid()
      modifies this
      ensures Valid()
      ensures !Owns(old(templates), templateId, userId) ==>
        && r == Err(Other(NotFoundOrUnauthorized))
        && templates == old(templates) && cache == old(cache) && nextId == old(nextId)
      ensures Owns(old(templates), templateId, userId) ==>
        var orig := old(templates)[templateId];
        && r == Ok(Template(old(nextId), userId, orig.name + " (Copy)", orig.description,
                            orig.content, orig.variables, false))
        && old(nextId) !in old(templates)
        && templates == old(templates)[old(nextId) := r.value]
        && templates[templateId] == orig
        && nextId == old(nextId) + 1
        && cache == Invalidate(old(cache), userId)
    {
      if templateId !in templates || templates[templateId].userId != userId {
        return Err(Other(NotFoundOrUnauthorized));
      }
      var orig := templates[templateId];
      var copy := Template(nextId, userId, orig.name + " (Copy)", orig.description, orig.content, orig.variables, false);
      ghost var oldTemplates := templates;
      ghost var oldCache := cache;
      templates := templates[nextId := copy];
      nextId := nextId + 1;
      cache := Invalidate(cache, userId);
      CoherentAfter(oldTemplates, oldCache, userId);
      r := Ok(copy);
    }
  }

  // ---------------------------------------------------------------------------
  // The cache invalidation as written
  // ---------------------------------------------------------------------------

  /** The text of a listing-cache key. */
  function ListingKeyText(userId: string, filtersJson: string): (k: string)
    ensures |k| == 11 + |userId| + |filtersJson|
  {
    "templates:" + userId + ":" + filtersJson
  }

  /** The key every write deletes, `templates:${userId}`. */
  function DeletedKeyText(userId: string): (k: string)
    ensures |k| == 10 + |userId|
  {
    "templates:" + userId
  }

  /** `cache.del('templates:${userId}')` on a cache of string keys. */
  function InvalidateAsWritten<V>(cache: map<string, V>, userId: string): map<string, V>
  {
    cache - {DeletedKeyText(userId)}
  }

  /** The deleted key is never a listing key, so every cached listing of the
      user survives a write and the next `getTemplates` with the same filters
      returns the listing from before the write. */
  lemma AsWrittenKeepsListings<V>(cache: map<string, V>, userId: string, filtersJson: string)
    requires ListingKeyText(userId, filtersJson) in cache
    ensures ListingKeyText(userId, filtersJson) in InvalidateAsWritten(cache, userId)
    ensures InvalidateAsWritten(cache, userId)[ListingKeyText(userId, filtersJson)]
         == cache[ListingKeyText(userId, filtersJson)]
  {
    assert ListingKeyText(userId, filtersJson) != DeletedKeyText(userId);
  }

  /** `delPattern('templates:${userId}:*')`: every key with the user's listing
      prefix is removed. */
  function InvalidateByPrefix<V>(cache: map<string, V>, userId: string): (c: map<string, V>)
    ensures forall k :: k in c ==> k in cache && c[k] == cache[k]
  {
    map k | k in cache && !StartsWith(k, "templates:" + userId + ":") :: cache[k]
  }

  /** After the prefix deletion no listing of the user is cached, and keys
      outside the prefix are kept. */
  lemma InvalidateByPrefixRemovesListings<V>(cache: map<string, V>, userId: string, filtersJson: string, other: string)
    ensures ListingKeyText(userId, filtersJson) !in InvalidateByPrefix(cache, userId)
    ensures other in cache && !StartsWith(other, "templates:" + userId + ":") ==>
      other in InvalidateByPrefix(cache, userId)
  {
    assert ("templates:" + userId + ":") <= ListingKeyText(userId, filtersJson) by {
      assert ListingKeyText(userId, filtersJson) == ("templates:" + userId + ":") + filtersJson;
    }
  }

  /** For user ids without a colon, a listing key has the user's prefix
      exactly when it is that user's key. */
  lemma ListingPrefixIff(u: string, v: string, filtersJson: string)
    requires ':' !in u && ':' !in v
    ensures StartsWith(ListingKeyText(v, filtersJson), "templates:" + u + ":") <==> u == v
  {
    var k := ListingKeyText(v, filtersJson);
    var p := "templates:" + u + ":";
    assert k == ("templates:" + v + ":") + filtersJson;
    if p <= k {
      if |u| < |v| {
        SameCharAt(p, k, 10 + |u|);
        assert false;
      } else if |u| > |v| {
        SameCharAt(p, k, 10 + |v|);
        assert false;
      } else {
        forall i | 0 <= i < |u| ensures u[i] == v[i] {
          SameCharAt(p, k, 10 + i);
        }
      }
    }
  }

  /** A prefix agrees with the text at each of its positions. */
  lemma SameCharAt(p: string, k: string, i: nat)
    requires p <= k && i < |p|
    ensures p[i] == k[i]
  {
  }

  /** The listing cache keyed by (user, filters) is the text-keyed cache seen
      through the key format: when no user id contains a colon, a listing
      survives `Invalidate` exactly when its text key survives the prefix
      deletion. `json` is `JSON.stringify` of the filters. */
  lemma InvalidateAgreesWithPrefix<V>(c: map<ListingKey, V>, t: map<string, V>, json: Option<Filters> -> string, u: string)
    requires ':' !in u
    requires forall k :: k in c ==> ':' !in k.userId && ListingKeyText(k.userId, json(k.filters)) in t
    ensures forall k :: k in c ==>
      (k in Invalidate(c, u) <==> ListingKeyText(k.userId, json(k.filters)) in InvalidateByPrefix(t, u))
  {
    forall k | k in c
      ensures k in Invalidate(c, u) <==> ListingKeyText(k.userId, json(k.filters)) in InvalidateByPrefix(t, u)
    {
      ListingPrefixIff(u, k.userId, json(k.filters));
    }
  }

  /** With a colon in a user id the prefix deletion also removes another
      user's listings: `templates:a:` is a prefix of user `a:b`'s keys. */
  lemma PrefixReachesColonUser(filtersJson: string)
    ensures StartsWith(ListingKeyText("a:b", filtersJson), "templates:" + "a" + ":")
  {
    assert ListingKeyText("a:b", filtersJson) == ("templates:" + "a" + ":") + ("b:" + filtersJson);
  }
}
