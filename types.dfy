/** Shared vocabulary of the SNMNMF control layer: matrices (kept abstract), the
    factor triple, the oracles that stand for the floating-point formulas and the
    seeding collaborator, the run configuration, and the error values. */
module Types {

  datatype Option<T> = None | Some(value: T)

  datatype Result<T, E> = Ok(value: T) | Err(error: E)

  /** A matrix as a sequence of rows. Only the row count is ever inspected by the
      control layer; every entry-level computation is hidden in an oracle. */
  type Matrix = seq<seq<real>>

  function Rows(m: Matrix): nat
  {
    |m|
  }

  /** The working triple: basis W (s x r), coefficients H (r x m) and H1 (r x n). */
  datatype Factors = Factors(W: Matrix, H: Matrix, H1: Matrix)

  /** What one call of `objective` yields: the objective value and `err_avg`. */
  datatype Evaluation = Evaluation(obj: real, errAvg: real)

  /** The floating-point parts of the algorithm, left uninterpreted.
      fW(W, H, H1) is the basis update, fH(W', H, H1) the candidate for H and
      fH1(W', H, H1) the new H1, where W' is the freshly updated basis; each closes
      over the fixed inputs V, V1, A, B, gamma, gamma_1, lamb and lamb_1.
      `objective` is the penalised objective together with `err_avg`.
      seed(data, rank, idx, run) is the seeding collaborator's (basis, coefficients)
      for the given data matrix, the `idx` option and the run index. */
  datatype Oracles = Oracles(
    fW: (Matrix, Matrix, Matrix) -> Matrix,
    fH: (Matrix, Matrix, Matrix) -> Matrix,
    fH1: (Matrix, Matrix, Matrix) -> Matrix,
    objective: (Matrix, Matrix, Matrix) -> Evaluation,
    seed: (Matrix, nat, nat, nat) -> (Matrix, Matrix))

  function Evaluate(o: Oracles, f: Factors): Evaluation
  {
    o.objective(f.W, f.H, f.H1)
  }

  /** The reasons `factorize` fails. ShapeMismatch is the library's MFError;
      NoRuns is the UnboundLocalError raised by `return mffit` when no run
      executed; OutOfFuel is the model's own bound on a loop without max_iter. */
  datatype Error = ShapeMismatch | NoRuns | OutOfFuel
}
