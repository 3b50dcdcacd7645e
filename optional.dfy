/** Python's `None`-or-value, for `last_scanned_tag`, `last_scan_time` and
    the results of reads that may find nothing. */
module Optional {
  datatype Option<T> = None | Some(value: T)
}
