/**
 * The options loader: five required environment variables, checked in a
 * fixed order, with every missing name collected into one error.
 */
module Config {
  import opened Wrappers
  import opened Text

  datatype Options = Options(
    bucketName: string,
    incomingPrefix: string,
    emailDomainName: string,
    senderAddress: string,
    forwardingAddress: string)

  /** The variables `options()` reads, in the order it reads them. */
  const RequiredVars: seq<string> :=
    ["BUCKET_NAME", "INCOMING_PREFIX", "EMAIL_DOMAIN_NAME", "SENDER_ADDRESS", "FORWARDING_ADDRESS"]

  const UndefinedVarsPrefix: string := "undefined environment variables: "

  datatype UndefinedEnvVarsError = UndefinedEnvVarsError(undefinedVars: seq<string>)
  {
    /** The message: the prefix, then the names separated by ", ". */
    function Error(): (msg: string)
      ensures |msg| >= |UndefinedVarsPrefix| && msg[..|UndefinedVarsPrefix|] == UndefinedVarsPrefix
      ensures undefinedVars == [] ==> msg == UndefinedVarsPrefix
      ensures |undefinedVars| == 1 ==> msg == UndefinedVarsPrefix + undefinedVars[0]
      ensures forall i :: 0 <= i < |undefinedVars| ==> Occurs(undefinedVars[i], msg)
    {
      JoinListsEveryElement(undefinedVars, ", ");
      forall i | 0 <= i < |undefinedVars|
        ensures Occurs(undefinedVars[i], UndefinedVarsPrefix + Join(undefinedVars, ", "))
      {
        OccursAfterPrefix(undefinedVars[i], UndefinedVarsPrefix, Join(undefinedVars, ", "));
      }
      UndefinedVarsPrefix + Join(undefinedVars, ", ")
    }
  }

  /** One more undefined name adds ", " and the name to the end of the message. */
  lemma ErrorAppendsName(vars: seq<string>, name: string)
    requires vars != []
    ensures UndefinedEnvVarsError(vars + [name]).Error() == UndefinedEnvVarsError(vars).Error() + ", " + name
  {
    JoinAppend(vars, name, ", ");
  }

  /** `x` appears in `s` starting at position `k`. */
  predicate OccursAt(x: string, s: string, k: nat)
  {
    k + |x| <= |s| && s[k..k + |x|] == x
  }

  /** `x` appears somewhere in `s`. */
  ghost predicate Occurs(x: string, s: string)
  {
    exists k: nat :: OccursAt(x, s, k)
  }

  lemma OccursAfterPrefix(x: string, p: string, s: string)
    requires Occurs(x, s)
    ensures Occurs(x, p + s)
  {
    var k: nat :| OccursAt(x, s, k);
    assert (p + s)[|p| + k..|p| + k + |x|] == s[k..k + |x|];
    assert OccursAt(x, p + s, |p| + k);
  }

  /** Every element of a joined list appears in the joined text. */
  lemma {:induction false} JoinListsEveryElement(xs: seq<string>, sep: string)
    ensures forall i :: 0 <= i < |xs| ==> Occurs(xs[i], Join(xs, sep))
  {
    if |xs| == 1 {
      assert OccursAt(xs[0], Join(xs, sep), 0);
    } else if |xs| > 1 {
      var rest := Join(xs[1..], sep);
      JoinListsEveryElement(xs[1..], sep);
      assert Join(xs, sep) == xs[0] + sep + rest;
      forall i | 0 <= i < |xs|
        ensures Occurs(xs[i], Join(xs, sep))
      {
        if i == 0 {
          assert Join(xs, sep)[0..|xs[0]|] == xs[0];
          assert OccursAt(xs[0], Join(xs, sep), 0);
        } else {
          assert xs[i] == xs[1..][i - 1];
          OccursAfterPrefix(xs[i], xs[0] + sep, rest);
        }
      }
    }
  }

  /** `[name]` when the value of `name` is empty, otherwise nothing. */
  function Missing(getenv: string -> string, name: string): seq<string>
  {
    if getenv(name) == "" then [name] else []
  }

  /** The names among `names` whose value is empty, in the order of `names`. */
  function Undefined(getenv: string -> string, names: seq<string>): seq<string>
  {
    if names == [] then []
    else Missing(getenv, names[0]) + Undefined(getenv, names[1..])
  }

  /** A name is reported exactly when it is required and its value is empty. */
  lemma {:induction false} UndefinedIsExactlyTheEmpty(getenv: string -> string, names: seq<string>, v: string)
    ensures v in Undefined(getenv, names) <==> v in names && getenv(v) == ""
  {
    if names != [] {
      UndefinedIsExactlyTheEmpty(getenv, names[1..], v);
      assert names == [names[0]] + names[1..];
    }
  }

  /**
   * Reading the next required variable moves its entry, if any, from the
   * names still to be read into the list recorded so far.
   */
  lemma UndefinedSuffixStep(getenv: string -> string, acc: seq<string>, k: nat)
    requires k < |RequiredVars|
    ensures acc + Undefined(getenv, RequiredVars[k..])
         == acc + Missing(getenv, RequiredVars[k]) + Undefined(getenv, RequiredVars[k + 1..])
  {
    assert RequiredVars[k..][1..] == RequiredVars[k + 1..];
  }

  /** The reader of the environment, with the names found undefined so far. */
  class Environment {
    const getenv: string -> string
    var undefinedVars: seq<string>
    /** The names looked up so far, one entry per call of `getenv`. */
    ghost var queried: seq<string>

    constructor (getenv: string -> string)
      ensures this.getenv == getenv
      ensures undefinedVars == [] && queried == []
    {
      this.getenv := getenv;
      undefinedVars := [];
      queried := [];
    }

    /**
     * `assign`: looks `varname` up once; an empty value is recorded as
     * undefined and leaves the field as it was (`current`), any other value
     * becomes the field's new value.
     */
    method Assign(current: string, varname: string) returns (field: string)
      modifies this
      ensures queried == old(queried) + [varname]
      ensures undefinedVars == old(undefinedVars) + Missing(getenv, varname)
      ensures field == if getenv(varname) == "" then current else getenv(varname)
    {
      queried := queried + [varname];
      var value := getenv(varname);
      if value == "" {
        undefinedVars := undefinedVars + [varname];
        field := current;
      } else {
        field := value;
      }
    }

    /** `options`: the five assignments in order, then the verdict. */
    method LoadOptions() returns (r: Result<Options, UndefinedEnvVarsError>)
      modifies this
      ensures queried == old(queried) + RequiredVars
      ensures undefinedVars == old(undefinedVars) + Undefined(getenv, RequiredVars)
      ensures r.Err? <==> undefinedVars != []
      ensures r.Err? ==> r.error == UndefinedEnvVarsError(undefinedVars)
      ensures r.Ok? ==> r.value == Options(getenv("BUCKET_NAME"), getenv("INCOMING_PREFIX"),
                                           getenv("EMAIL_DOMAIN_NAME"), getenv("SENDER_ADDRESS"),
                                           getenv("FORWARDING_ADDRESS"))
    {
      ghost var u0 := undefinedVars;
      assert RequiredVars[0..] == RequiredVars;
      ghost var before0 := undefinedVars;
      var bucket := Assign("", "BUCKET_NAME");
      UndefinedSuffixStep(getenv, before0, 0);
      ghost var before1 := undefinedVars;
      var prefix := Assign("", "INCOMING_PREFIX");
      UndefinedSuffixStep(getenv, before1, 1);
      ghost var before2 := undefinedVars;
      var domain := Assign("", "EMAIL_DOMAIN_NAME");
      UndefinedSuffixStep(getenv, before2, 2);
      ghost var before3 := undefinedVars;
      var sender := Assign("", "SENDER_ADDRESS");
      UndefinedSuffixStep(getenv, before3, 3);
      ghost var before4 := undefinedVars;
      var forward := Assign("", "FORWARDING_ADDRESS");
      UndefinedSuffixStep(getenv, before4, 4);
      assert undefinedVars == u0 + Undefined(getenv, RequiredVars);
      if |undefinedVars| != 0 {
        return Err(UndefinedEnvVarsError(undefinedVars));
      }
      forall name | name in RequiredVars
        ensures getenv(name) != ""
      {
        UndefinedIsExactlyTheEmpty(getenv, RequiredVars, name);
      }
      return Ok(Options(bucket, prefix, domain, sender, forward));
    }
  }

  /**
   * `GetOptions`: the options when every variable is set, otherwise one
   * error that lists every unset variable, in the order they are read.
   */
  method GetOptions(getenv: string -> string) returns (r: Result<Options, UndefinedEnvVarsError>)
    ensures r.Err? <==> Undefined(getenv, RequiredVars) != []
    ensures r.Err? ==> r.error.undefinedVars == Undefined(getenv, RequiredVars)
    ensures r.Ok? ==> r.value == Options(getenv("BUCKET_NAME"), getenv("INCOMING_PREFIX"),
                                         getenv("EMAIL_DOMAIN_NAME"), getenv("SENDER_ADDRESS"),
                                         getenv("FORWARDING_ADDRESS"))
  {
    var env := new Environment(getenv);
    r := env.LoadOptions();
  }

  /** With nothing set, all five names are reported, in order. */
  lemma NothingSetReportsAll(getenv: string -> string)
    requires forall name :: getenv(name) == ""
    ensures Undefined(getenv, RequiredVars) == RequiredVars
    ensures UndefinedEnvVarsError(Undefined(getenv, RequiredVars)).Error()
         == "undefined environment variables: " + "BUCKET_NAME" + ", " + "INCOMING_PREFIX" + ", "
          + "EMAIL_DOMAIN_NAME" + ", " + "SENDER_ADDRESS" + ", " + "FORWARDING_ADDRESS"
  {
    assert Undefined(getenv, RequiredVars[4..]) == RequiredVars[4..];
    assert Undefined(getenv, RequiredVars[3..]) == RequiredVars[3..];
    assert Undefined(getenv, RequiredVars[2..]) == RequiredVars[2..];
    assert Undefined(getenv, RequiredVars[1..]) == RequiredVars[1..];
    var names := RequiredVars;
    assert Join(names[4..], ", ") == "FORWARDING_ADDRESS";
    assert names[3..][1..] == names[4..];
    assert Join(names[3..], ", ") == "SENDER_ADDRESS" + ", " + "FORWARDING_ADDRESS";
    assert names[2..][1..] == names[3..];
    assert Join(names[2..], ", ") == "EMAIL_DOMAIN_NAME" + ", " + Join(names[3..], ", ");
    assert names[1..][1..] == names[2..];
    assert Join(names[1..], ", ") == "INCOMING_PREFIX" + ", " + Join(names[2..], ", ");
    assert Join(names, ", ") == "BUCKET_NAME" + ", " + Join(names[1..], ", ");
  }
}
