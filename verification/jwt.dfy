/**
  The choice the `cli` command makes about the JWT secret shared by the
  execution and consensus clients: generate one, or use the given path.
  Generating the secret and resolving the working directory happen outside
  this model; `cwd` stands for the process's working directory and `clean`
  for `filepath.Clean`, the lexical normalisation `filepath.Abs` applies to
  its result.
 */
module JwtSecret {

  /** Generate a fresh secret, or hand the given path to generation. */
  datatype JwtDecision = GenerateSecret | UsePath(path: string)

  /** `filepath.IsAbs` on POSIX: the path starts with `/`. */
  predicate IsAbs(p: string)
  {
    |p| > 0 && p[0] == '/'
  }

  /** The one property of `filepath.Clean` the model relies on: an absolute path stays absolute. */
  ghost predicate KeepsAbsolute(clean: string -> string)
  {
    forall q :: IsAbs(q) ==> IsAbs(clean(q))
  }

  /** Cleaning a cleaned path changes nothing, as for `filepath.Clean`. */
  ghost predicate Idempotent(clean: string -> string)
  {
    forall q :: clean(clean(q)) == clean(q)
  }

  /**
    `filepath.Abs`: a relative path is first joined to `cwd`, and the result
    is cleaned either way.
   */
  function AbsPath(p: string, cwd: string, clean: string -> string): (r: string)
    requires IsAbs(cwd) && KeepsAbsolute(clean)
    ensures IsAbs(r)
    ensures IsAbs(p) ==> r == clean(p)
    ensures !IsAbs(p) ==> r == clean(cwd + "/" + p)
  {
    if IsAbs(p) then clean(p) else clean(cwd + "/" + p)
  }

  /** Resolving an already resolved path changes nothing. */
  lemma AbsPathIdempotent(p: string, cwd: string, clean: string -> string)
    requires IsAbs(cwd) && KeepsAbsolute(clean) && Idempotent(clean)
    ensures AbsPath(AbsPath(p, cwd, clean), cwd, clean) == AbsPath(p, cwd, clean)
  {
    if IsAbs(p) {
      assert clean(clean(p)) == clean(p);
    } else {
      assert clean(clean(cwd + "/" + p)) == clean(cwd + "/" + p);
    }
  }

  /**
    The JWT step as the command performs it: the `else if` resolves the path
    only when it is already absolute, so a relative path is handed on as it is.
   */
  function JwtStepAsWritten(jwtPath: string, requireJwt: bool, cwd: string, clean: string -> string): (d: JwtDecision)
    requires IsAbs(cwd) && KeepsAbsolute(clean)
    ensures d.GenerateSecret? <==> jwtPath == "" && requireJwt
    ensures d.UsePath? ==> (IsAbs(d.path) <==> IsAbs(jwtPath))
    ensures d.UsePath? && !IsAbs(jwtPath) ==> d.path == jwtPath
  {
    if jwtPath == "" && requireJwt then GenerateSecret
    else if IsAbs(jwtPath) then UsePath(AbsPath(jwtPath, cwd, clean))
    else UsePath(jwtPath)
  }

  /** A relative secret path passes through the step as written and stays relative. */
  lemma JwtStepAsWrittenKeepsRelativePath(clean: string -> string)
    requires KeepsAbsolute(clean)
    ensures JwtStepAsWritten("jwtsecret", true, "/home/sedge", clean) == UsePath("jwtsecret")
    ensures !IsAbs(JwtStepAsWritten("jwtsecret", true, "/home/sedge", clean).path)
  {
  }

  /**
    The JWT step as its comment intends: a secret is generated when none is
    given and the network needs one; every given path goes through
    `filepath.Abs`; an empty path for a network without JWT stays empty.
   */
  function JwtStep(jwtPath: string, requireJwt: bool, cwd: string, clean: string -> string): (d: JwtDecision)
    requires IsAbs(cwd) && KeepsAbsolute(clean)
    ensures d.GenerateSecret? <==> jwtPath == "" && requireJwt
    ensures d.UsePath? && jwtPath != "" ==> IsAbs(d.path)
    ensures d.UsePath? && jwtPath == "" ==> d.path == ""
    ensures IsAbs(jwtPath) ==> d == UsePath(clean(jwtPath))
    ensures jwtPath != "" && !IsAbs(jwtPath) ==> d == UsePath(clean(cwd + "/" + jwtPath))
  {
    if jwtPath == "" && requireJwt then GenerateSecret
    else if jwtPath != "" then UsePath(AbsPath(jwtPath, cwd, clean))
    else UsePath(jwtPath)
  }

  /** The two steps differ exactly on non-empty relative paths, which only the corrected one resolves. */
  lemma JwtStepDiffersOnlyOnRelativePaths(jwtPath: string, requireJwt: bool, cwd: string, clean: string -> string)
    requires IsAbs(cwd) && KeepsAbsolute(clean)
    ensures JwtStep(jwtPath, requireJwt, cwd, clean) != JwtStepAsWritten(jwtPath, requireJwt, cwd, clean) <==>
      jwtPath != "" && !IsAbs(jwtPath)
  {
  }

  /**
    With the corrected step, the path generation receives: the freshly
    generated secret's, or the absolute path the step decided on.
   */
  function JwtSecretPath(jwtPath: string, requireJwt: bool, cwd: string, clean: string -> string,
                         generatedPath: string): (p: string)
    requires IsAbs(cwd) && KeepsAbsolute(clean)
    ensures jwtPath == "" && requireJwt ==> p == generatedPath
    ensures jwtPath != "" ==> IsAbs(p)
  {
    match JwtStep(jwtPath, requireJwt, cwd, clean)
    case GenerateSecret => generatedPath
    case UsePath(path) => path
  }
}
