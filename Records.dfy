/**
 * The records both stores keep and the signals their operations return
 * (internal/data/models.go, package data).
 */
module Records {

  /** An abstract clock reading; the source stamps records with time.Now(). */
  type Time = int

  datatype Option<T> = None | Some(value: T)

  /** A prompt that answers are submitted against. */
  datatype Theme = Theme(
    id: string,
    title: string,
    description: string,
    createdAt: Time,
    updatedAt: Time,
    createdBy: string,
    active: bool)

  /** A submission made to exactly one theme. */
  datatype Answer = Answer(
    id: string,
    themeId: string,
    content: string,
    createdAt: Time,
    updatedAt: Time,
    createdBy: string,
    likes: int)

  /**
   * NotFound is the distinguished ErrNotFound value; SaveFailed stands for
   * any error saveToFile returns (it is never equal to ErrNotFound).
   */
  datatype StoreError = NotFound | SaveFailed

  /** What a lookup returns: the record, or the error the store signals. */
  datatype Result<T> = Ok(value: T) | Err(error: StoreError)

  /** What a mutator returns: nil, or an error. */
  datatype Outcome = Done | Failed(error: StoreError)

  /** A mutator's returned error together with the store state it leaves behind. */
  datatype Step<S> = Step(outcome: Outcome, next: S)
}
