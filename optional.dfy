/** The conventional Some/None datatype; `None` stands for JavaScript's `null`,
    `undefined` and `NaN` wherever the page's code tests for them. */
module Optional {

  datatype Option<+T> = None | Some(value: T)
}
