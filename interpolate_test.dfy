/** The expectations of src/interpolate.test.ts, stated about `Interpolation.Interpolate`. */
module InterpolationTest {
  import opened Strings
  import opened Interpolation

  /** The source's first test: unknown tokens are left alone. */
  lemma LeavesUnusedAlone(template: string, vars: Vars)
    requires template == "https://example.com/{name}/{value}/{unused}"
    requires vars == map["name" := "my-name", "value" := "my-value"]
    ensures Interpolate(template, vars) == "https://example.com/my-name/my-value/{unused}"
  {
    var name, value := Slot(0, "name", 0), Slot(0, "value", 0);
    assert template == "https://example.com/" + "{name}" + "/" + "{value}" + "/{unused}";
    assert name.Text() == "{name}" && value.Text() == "{value}";
    ExampleShape(template, vars, name, value);
  }

  /** The source's second test: spaces inside the braces are ignored. */
  lemma WhitespaceInsensitive(template: string, vars: Vars)
    requires template == "https://example.com/{ name}/{value  }/{unused}"
    requires vars == map["name" := "my-name", "value" := "my-value"]
    ensures Interpolate(template, vars) == "https://example.com/my-name/my-value/{unused}"
  {
    var name, value := Slot(1, "name", 0), Slot(0, "value", 2);
    assert template == "https://example.com/" + "{ name}" + "/" + "{value  }" + "/{unused}";
    SpacedTexts();
    ExampleShape(template, vars, name, value);
  }

  /** Spells out the two spaced tokens of the second test. */
  lemma SpacedTexts()
    ensures Slot(1, "name", 0).Text() == "{ name}"
    ensures Slot(0, "value", 2).Text() == "{value  }"
  {
    assert Spaces(1) == " " && Spaces(2) == "  ";
  }

  /** The shape of both tests: `https://example.com/`, a `name` token, `/`, a `value`
      token, `/`, an `unused` token. */
  lemma ExampleShape(template: string, vars: Vars, name: Slot, value: Slot)
    requires vars == map["name" := "my-name", "value" := "my-value"]
    requires name.key == "name" && value.key == "value"
    requires template == "https://example.com/" + name.Text() + "/" + value.Text() + "/{unused}"
    ensures Interpolate(template, vars) == "https://example.com/my-name/my-value/{unused}"
  {
    var prefix, unused := "https://example.com/", Slot(0, "unused", 0);
    assert unused.Text() == "{unused}";
    assert template == prefix + name.Text() + "/" + value.Text() + "/" + unused.Text();
    KnownKeysValid();
    ThreeTokens(prefix, name, value, unused, vars);
    var n, v := vars[name.key], vars[value.key];
    assert n == "my-name" && v == "my-value";
    ExampleExpected(prefix, n, v, unused.Text());
  }

  /** Regroups the expected output of the first two tests for the solver. */
  lemma ExampleExpected(prefix: string, n: string, v: string, u: string)
    requires prefix == "https://example.com/" && n == "my-name" && v == "my-value" && u == "{unused}"
    ensures prefix + (n + ("/" + (v + ("/" + (u + ""))))) == "https://example.com/my-name/my-value/{unused}"
  {
  }

  /** The source's third test, for every set of variables that does not name `this`:
      `${this}` is copied, never evaluated. */
  lemma UnsafeTemplateUnchanged(template: string, vars: Vars)
    requires template == "Can I ${this}?" && "this" !in vars
    ensures Interpolate(template, vars) == template
  {
    var t := Slot(0, "this", 0);
    KnownKeysValid();
    assert t.Text() == "{this}";
    var r := t.Text() + "?";
    assert template == "Can I $" + r;
    calc {
      Interpolate(template, vars);
    == { BraceFreeKept("Can I $", r, vars); }
      "Can I $" + Interpolate(r, vars);
    == { UnknownTokenKept(t, "?", vars); }
      "Can I $" + (t.Text() + Interpolate("?", vars));
    == { assert "?" == "?" + ""; BraceFreeKept("?", "", vars); }
      "Can I $" + (t.Text() + ("?" + Interpolate("", vars)));
    }
  }
}
